/**
 * Sales and stock: what a sale consumed, what its reversal gives back, and what the preview promises.
 */
module StockSales {
  import opened Wrappers
  import opened Sums
  import opened ProductLines
  import opened SimStock
  import opened StockRuns

  // ---- sale-linked movements survive every edit of the log ------------------------------

  /** The same movement, except that a deleted row may have been unlinked from it. */
  predicate SameButUnlinked(m: Movement, n: Movement) {
    n == m.(source := n.source, target := n.target) && (n.source == m.source || n.source == None)
  }

  ghost predicate Survives(m: Movement, log: seq<Movement>) {
    exists n: Movement :: n in log && SameButUnlinked(m, n)
  }

  ghost predicate LinksSurvive(log: seq<Movement>, log': seq<Movement>) {
    && (forall m: Movement :: m in log && m.kind.SaleConsume? ==> Survives(m, log'))
    && (forall x: SaleId :: Sum(log', Count(x)) == Sum(log, Count(x)))
  }

  lemma SaleSoundSurvives(x: SaleId, sale: Sale, log: seq<Movement>, log': seq<Movement>)
    requires SaleSound(x, sale, log) && LinksSurvive(log, log')
    ensures SaleSound(x, sale, log')
  {
    if sale.consumed {
      var m: Movement :| m in log && ConsumedBy(sale, x, m);
      assert Survives(m, log');
      var n: Movement :| n in log' && SameButUnlinked(m, n);
      assert ConsumedBy(sale, x, n);
    }
  }

  lemma SalesSurvive(sales: map<SaleId, Sale>, log: seq<Movement>, log': seq<Movement>)
    requires SalesMatch(sales, log) && LinksSurvive(log, log')
    ensures SalesMatch(sales, log')
  {
    forall x | x in sales ensures SaleSound(x, sales[x], log') {
      SaleSoundSurvives(x, sales[x], log, log');
    }
    forall x: SaleId ensures Sum(log', Count(x)) == if IsConsumed(sales, x) then 1 else 0 {
      assert Sum(log, Count(x)) == if IsConsumed(sales, x) then 1 else 0;
    }
  }

  lemma AppendSurvives(log: seq<Movement>, m: Movement)
    requires m.sale.None?
    ensures LinksSurvive(log, log + [m])
  {
    forall n: Movement | n in log && n.kind.SaleConsume? ensures Survives(n, log + [m]) {
      assert n in log + [m] && SameButUnlinked(n, n);
    }
    forall x: SaleId ensures Sum(log + [m], Count(x)) == Sum(log, Count(x)) {
      SumAppend(log, m, Count(x));
    }
  }

  lemma UnlinkSurvives(log: seq<Movement>, pool: Pool)
    ensures LinksSurvive(log, UnlinkAll(log, pool))
  {
    var log' := UnlinkAll(log, pool);
    forall n: Movement | n in log && n.kind.SaleConsume? ensures Survives(n, log') {
      var i :| 0 <= i < |log| && log[i] == n;
      assert log'[i] in log' && SameButUnlinked(n, log'[i]);
    }
    forall x: SaleId ensures Sum(log', Count(x)) == Sum(log, Count(x)) {
      SumSame(log, log', Count(x), Count(x));
    }
  }

  lemma RemoveSurvives(log: seq<Movement>, k: nat)
    requires k < |log| && log[k].sale.None? && !IsSaleLinked(log[k])
    ensures LinksSurvive(log, log[..k] + log[k + 1..])
  {
    var log' := log[..k] + log[k + 1..];
    forall n: Movement | n in log && n.kind.SaleConsume? ensures Survives(n, log') {
      var i :| 0 <= i < |log| && log[i] == n;
      assert log'[if i < k then i else i - 1] == n;
      assert n in log' && SameButUnlinked(n, n);
    }
    forall x: SaleId ensures Sum(log', Count(x)) == Sum(log, Count(x)) {
      SumRemove(log, k, Count(x));
    }
  }

  // ---- cards ------------------------------------------------------------------------

  lemma {:induction false} RegisterEffect(cards: Cards, serials: seq<string>, card: Card)
    requires Register(cards, serials, card).Success?
    ensures forall k: string :: k in cards ==> k in Register(cards, serials, card).value && Register(cards, serials, card).value[k] == cards[k]
    ensures forall k: string :: k in Register(cards, serials, card).value && k !in cards ==> Register(cards, serials, card).value[k] == card
    decreases |serials|
  {
    if |serials| > 0 {
      RegisterEffect(cards[Upper(serials[0]) := card], serials[1..], card);
    }
  }

  lemma TailDistinct(serials: seq<string>)
    requires |serials| > 0
    ensures NoTwoAlike(serials) <==>
            NoTwoAlike(serials[1..]) && forall j :: 0 < j < |serials| ==> Upper(serials[j]) != Upper(serials[0])
  {
    var rest := serials[1..];
    assert forall j :: 0 < j < |serials| ==> serials[j] == rest[j - 1];
    if NoTwoAlike(serials) {
      forall i, j | 0 <= i < j < |rest| ensures Upper(rest[i]) != Upper(rest[j]) {
        assert rest[i] == serials[i + 1] && rest[j] == serials[j + 1];
      }
    }
  }

  /** Registering is refused exactly when a serial is taken or repeated, whatever its case. */
  lemma {:induction false} RegisterIff(cards: Cards, serials: seq<string>, card: Card)
    ensures Register(cards, serials, card).Success? <==>
            NoTwoAlike(serials) && forall i :: 0 <= i < |serials| ==> Upper(serials[i]) !in cards
    decreases |serials|
  {
    if |serials| > 0 {
      var key, rest := Upper(serials[0]), serials[1..];
      TailDistinct(serials);
      RegisterIff(cards[key := card], rest, card);
      assert forall j :: 0 < j < |serials| ==> serials[j] == rest[j - 1];
      assert forall j :: 0 <= j < |rest| ==> rest[j] == serials[j + 1];
    }
  }

  /** A transfer of cards is refused exactly when one is repeated or not where it should be. */
  lemma {:induction false} MoveCardsIff(cards: Cards, serials: seq<string>, line: LineId, wanted: CardStatus,
                                        status: CardStatus, customer: Option<CustomerId>, movement: MovementId)
    requires wanted != status
    ensures MoveCards(cards, serials, line, wanted, status, customer, movement).Success? <==>
            NoTwoAlike(serials) && forall i :: 0 <= i < |serials| ==> At(cards, serials[i], line, wanted)
    decreases |serials|
  {
    if |serials| > 0 && At(cards, serials[0], line, wanted) {
      var key, rest := Upper(serials[0]), serials[1..];
      TailDistinct(serials);
      MoveCardsIff(cards[key := MovedCard(cards[key], status, customer, movement)], rest, line, wanted, status, customer, movement);
      assert forall j :: 0 < j < |serials| ==> serials[j] == rest[j - 1];
      assert forall j :: 0 <= j < |rest| ==> rest[j] == serials[j + 1];
    }
  }

  /** How a card that was moved looks afterwards. */
  function MovedCard(card: Card, status: CardStatus, customer: Option<CustomerId>, movement: MovementId): Card {
    card.(status := status, customer := customer, movement := Some(movement))
  }

  lemma {:induction false} MoveCardsEffect(cards: Cards, serials: seq<string>, line: LineId, wanted: CardStatus,
                                           status: CardStatus, customer: Option<CustomerId>, movement: MovementId)
    requires wanted != status
    requires MoveCards(cards, serials, line, wanted, status, customer, movement).Success?
    ensures var after := MoveCards(cards, serials, line, wanted, status, customer, movement).value;
            && after.Keys == cards.Keys
            && (forall k: string :: k in cards ==>
                  || after[k] == cards[k]
                  || (cards[k].status == wanted && after[k] == MovedCard(cards[k], status, customer, movement)))
            && (forall i :: 0 <= i < |serials| ==>
                  At(cards, serials[i], line, wanted) && after[Upper(serials[i])] == MovedCard(cards[Upper(serials[i])], status, customer, movement))
    decreases |serials|
  {
    if |serials| > 0 {
      var key := Upper(serials[0]);
      var next := cards[key := MovedCard(cards[key], status, customer, movement)];
      MoveCardsEffect(next, serials[1..], line, wanted, status, customer, movement);
      forall i | 0 < i < |serials|
        ensures At(cards, serials[i], line, wanted) && Upper(serials[i]) != key
      {
        assert serials[i] == serials[1..][i - 1];
      }
    }
  }

  lemma RegisterKeepsCards(cards: Cards, sales: map<SaleId, Sale>, last: MovementId, serials: seq<string>, line: LineId)
    requires CardsSound(cards, sales, last)
    requires Register(cards, serials, Card(line, InMain, None, None, Some(last + 1))).Success?
    ensures CardsSound(Register(cards, serials, Card(line, InMain, None, None, Some(last + 1))).value, sales, last + 1)
  {
    var card := Card(line, InMain, None, None, Some(last + 1));
    RegisterEffect(cards, serials, card);
    var after := Register(cards, serials, card).value;
    forall k: string | k in after ensures CardSound(after[k], sales, last + 1) {
      assert k in cards ==> CardSound(cards[k], sales, last);
    }
  }

  lemma MoveKeepsCards(cards: Cards, sales: map<SaleId, Sale>, last: MovementId, serials: seq<string>, line: LineId,
                       wanted: CardStatus, status: CardStatus, customer: Option<CustomerId>)
    requires CardsSound(cards, sales, last) && wanted != status && !wanted.Consumed? && !status.Consumed?
    requires status.InMain? ==> customer.None?
    requires MoveCards(cards, serials, line, wanted, status, customer, last + 1).Success?
    ensures CardsSound(MoveCards(cards, serials, line, wanted, status, customer, last + 1).value, sales, last + 1)
  {
    MoveCardsEffect(cards, serials, line, wanted, status, customer, last + 1);
    var after := MoveCards(cards, serials, line, wanted, status, customer, last + 1).value;
    forall k: string | k in after ensures CardSound(after[k], sales, last + 1) && after[k].sale == cards[k].sale {
      assert CardSound(cards[k], sales, last);
    }
  }

  /** Undoing a movement never touches a sold card: those were last moved by their sale. */
  lemma UndoKeepsCards(s: Stock, k: nat)
    requires Sound(s) && k < |s.log| && !IsSaleLinked(s.log[k])
    ensures CardsSound(UndoCards(s.cards, s.log[k]), s.sales, s.last)
    ensures forall key: string :: key in s.cards && s.cards[key].sale.Some? ==>
              key in UndoCards(s.cards, s.log[k]) && UndoCards(s.cards, s.log[k])[key] == s.cards[key]
  {
    var m := s.log[k];
    var after := UndoCards(s.cards, m);
    forall key: string | key in s.cards && s.cards[key].sale.Some? ensures s.cards[key].movement != Some(m.id) {
      SoldCardMovedLast(s, k, key);
    }
    forall key: string | key in after ensures CardSound(after[key], s.sales, s.last) && after[key].sale == s.cards[key].sale {
      assert CardSound(s.cards[key], s.sales, s.last);
    }
  }

  /** A sold card was last moved by the sale, never by a movement that can be deleted. */
  lemma SoldCardMovedLast(s: Stock, k: nat, key: string)
    requires Sound(s) && k < |s.log| && !IsSaleLinked(s.log[k]) && key in s.cards && s.cards[key].sale.Some?
    ensures s.cards[key].movement != Some(s.log[k].id)
  {
    var card := s.cards[key];
    assert CardSound(card, s.sales, s.last);
    var x := card.sale.value;
    assert SaleSound(x, s.sales[x], s.log);
    var n: Movement :| n in s.log && ConsumedBy(s.sales[x], x, n);
    var i :| 0 <= i < |s.log| && s.log[i] == n;
    assert s.log[i].id != s.log[k].id;
  }

  // ---- every operation keeps sales and cards --------------------------------------------

  lemma RecordingKeepsSales(s: Stock, m: Movement, s': Stock)
    requires SalesSound(s) && m.sale.None? && s'.log == s.log + [m] && s'.sales == s.sales
    ensures SalesMatch(s'.sales, s'.log)
  {
    AppendSurvives(s.log, m);
    SalesSurvive(s.sales, s.log, s'.log);
  }

  lemma CardsOutlast(cards: Cards, sales: map<SaleId, Sale>, last: MovementId, last': MovementId)
    requires CardsSound(cards, sales, last) && last <= last'
    ensures CardsSound(cards, sales, last')
  {
    forall k: string | k in cards ensures CardSound(cards[k], sales, last') {
      assert CardSound(cards[k], sales, last);
    }
  }

  lemma ReceiveKeepsSales(s: Stock, line: LineId, quantity: int, serials: seq<string>)
    requires Sound(s) && Receive(s, line, quantity, serials).Success?
    ensures SalesSound(Receive(s, line, quantity, serials).value)
  {
    var s' := Receive(s, line, quantity, serials).value;
    RecordingKeepsSales(s, s'.log[|s.log|], s');
    RegisterKeepsCards(s.cards, s.sales, s.last, serials, StockLine(s.lines, line));
  }

  lemma AllocateKeepsSales(s: Stock, customer: CustomerId, line: LineId, quantity: int, serials: seq<string>)
    requires Sound(s) && Allocate(s, customer, line, quantity, serials).Success?
    ensures SalesSound(Allocate(s, customer, line, quantity, serials).value)
  {
    var s' := Allocate(s, customer, line, quantity, serials).value;
    RecordingKeepsSales(s, s'.log[|s.log|], s');
    MoveKeepsCards(s.cards, s.sales, s.last, serials, StockLine(s.lines, line), InMain, WithCustomer, Some(customer));
  }

  lemma ReturnKeepsSales(s: Stock, customer: CustomerId, line: LineId, quantity: int, serials: seq<string>)
    requires Sound(s) && Return(s, customer, line, quantity, serials).Success?
    ensures SalesSound(Return(s, customer, line, quantity, serials).value)
  {
    var s' := Return(s, customer, line, quantity, serials).value;
    RecordingKeepsSales(s, s'.log[|s.log|], s');
    MoveKeepsCards(s.cards, s.sales, s.last, serials, StockLine(s.lines, line), WithCustomer, InMain, None);
  }

  /** One more movement, of no sale, and no card or sale touched. */
  ghost predicate OneMore(s: Stock, s': Stock) {
    && |s'.log| == |s.log| + 1 && s'.log == s.log + [s'.log[|s.log|]] && s'.log[|s.log|].sale.None?
    && s'.last == s.last + 1 && s'.cards == s.cards && s'.sales == s.sales
  }

  lemma CorrectedIsOneMore(s: Stock, pool: Pool, delta: int)
    ensures OneMore(s, Corrected(s, pool, delta))
  {
  }

  lemma WithdrawIsOneMore(s: Stock, kind: Kind, pool: Pool, quantity: int)
    requires Withdraw(s, kind, pool, quantity).Success? && (kind.DamagedStock? || kind.ManualSale?)
    ensures OneMore(s, Withdraw(s, kind, pool, quantity).value)
  {
  }

  lemma SetQuantityIsOneMore(s: Stock, pool: Pool, quantity: int, reason: string, requireReason: bool)
    requires SetQuantity(s, pool, quantity, reason, requireReason).Success?
    ensures var s' := SetQuantity(s, pool, quantity, reason, requireReason).value; s' == s || OneMore(s, s')
  {
    CorrectedIsOneMore(s, pool, quantity - s.rows[pool]);
  }

  lemma CorrectionIsOneMore(s: Stock, op: Op)
    requires op.OpSetQuantity? || op.OpClear? || op.OpAdjust? || op.OpDamaged? || op.OpSellManually?
    ensures Apply(s, op) == s || OneMore(s, Apply(s, op))
  {
    if Outcome(s, op).Success? {
      match op
      case OpSetQuantity(pool, quantity, reason, requireReason) => SetQuantityIsOneMore(s, pool, quantity, reason, requireReason);
      case OpClear(pool, reason) => SetQuantityIsOneMore(s, pool, 0, if reason == "" then "Cleared for testing" else reason, true);
      case OpAdjust(pool, delta, _) => CorrectedIsOneMore(s, pool, delta);
      case OpDamaged(pool, quantity) => WithdrawIsOneMore(s, DamagedStock, pool, quantity);
      case OpSellManually(pool, quantity) => WithdrawIsOneMore(s, ManualSale, pool, quantity);
    }
  }

  lemma OneMoreKeepsSales(s: Stock, s': Stock)
    requires SalesSound(s) && OneMore(s, s')
    ensures SalesSound(s')
  {
    RecordingKeepsSales(s, s'.log[|s.log|], s');
    CardsOutlast(s.cards, s.sales, s.last, s'.last);
  }

  lemma CorrectionKeepsSales(s: Stock, op: Op)
    requires SalesSound(s) && (op.OpSetQuantity? || op.OpClear? || op.OpAdjust? || op.OpDamaged? || op.OpSellManually?)
    ensures SalesSound(Apply(s, op))
  {
    CorrectionIsOneMore(s, op);
    if Apply(s, op) != s {
      OneMoreKeepsSales(s, Apply(s, op));
    }
  }

  lemma DeletionKeepsSales(s: Stock, op: Op)
    requires Sound(s) && (op.OpDeleteRow? || op.OpDeleteMovement?)
    ensures var s' := Apply(s, op); SalesSound(s')
  {
    var s' := Apply(s, op);
    if Outcome(s, op).Success? {
      if op.OpDeleteRow? {
        UnlinkSurvives(s.log, op.pool);
      } else {
        var k := IndexOf(s.log, op.id);
        assert MovementSound(s.rows, s.log[k]);
        RemoveSurvives(s.log, k);
        UndoKeepsCards(s, k);
      }
      SalesSurvive(s.sales, s.log, s'.log);
    }
  }

  // ---- consuming and reversing -------------------------------------------------------------

  lemma CountsAfter(sales: map<SaleId, Sale>, sales': map<SaleId, Sale>, log: seq<Movement>, x: SaleId, m: Movement)
    requires CountsMatch(sales, log) && m.sale == Some(x) && IsSaleLinked(m)
    requires IsConsumed(sales, x) != IsConsumed(sales', x) && (m.kind.SaleConsume? <==> IsConsumed(sales', x))
    requires forall y :: y != x ==> IsConsumed(sales, y) == IsConsumed(sales', y)
    ensures CountsMatch(sales', log + [m])
  {
    forall y: SaleId ensures Sum(log + [m], Count(y)) == if IsConsumed(sales', y) then 1 else 0 {
      SumAppend(log, m, Count(y));
      assert Sum(log, Count(y)) == if IsConsumed(sales, y) then 1 else 0;
    }
  }

  lemma OtherSalesSound(sales: map<SaleId, Sale>, log: seq<Movement>, m: Movement, y: SaleId)
    requires y in sales && SaleSound(y, sales[y], log)
    ensures SaleSound(y, sales[y], log + [m])
  {
    if sales[y].consumed {
      var n: Movement :| n in log && ConsumedBy(sales[y], y, n);
      assert n in log + [m] && ConsumedBy(sales[y], y, n);
    }
  }

  lemma ConsumedNow(sales: map<SaleId, Sale>, log: seq<Movement>, x: SaleId, sale: Sale, m: Movement)
    requires SalesMatch(sales, log) && !IsConsumed(sales, x)
    requires sale.consumed && !sale.deductedFrom.Nowhere? && ConsumedBy(sale, x, m)
    ensures SalesMatch(sales[x := sale], log + [m])
  {
    var after := sales[x := sale];
    CountsAfter(sales, after, log, x, m);
    forall y | y in after ensures SaleSound(y, after[y], log + [m]) {
      if y == x {
        assert m in log + [m];
      } else {
        OtherSalesSound(sales, log, m, y);
      }
    }
  }

  lemma NotConsumedNow(sales: map<SaleId, Sale>, log: seq<Movement>, x: SaleId, sale: Sale, m: Movement)
    requires SalesMatch(sales, log) && IsConsumed(sales, x) && m.sale == Some(x) && m.kind.SaleReversal?
    requires !sale.consumed && sale.deductedFrom.Nowhere? && sale.movement.None?
    ensures SalesMatch(sales[x := sale], log + [m])
  {
    var after := sales[x := sale];
    CountsAfter(sales, after, log, x, m);
    forall y | y in after ensures SaleSound(y, after[y], log + [m]) {
      if y != x {
        OtherSalesSound(sales, log, m, y);
      }
    }
  }

  lemma TakeKeepsCards(cards: Cards, sales: map<SaleId, Sale>, last: MovementId, serial: string, line: LineId,
                       from: DeductedFrom, customer: Option<CustomerId>, x: SaleId, sale: Sale)
    requires CardsSound(cards, sales, last) && !IsConsumed(sales, x) && sale.consumed && sale.movement == Some(last + 1)
    requires TakeCard(cards, serial, line, from, customer, x, last + 1).Success?
    ensures CardsSound(TakeCard(cards, serial, line, from, customer, x, last + 1).value, sales[x := sale], last + 1)
  {
    var after := TakeCard(cards, serial, line, from, customer, x, last + 1).value;
    forall k: string | k in after ensures CardSound(after[k], sales[x := sale], last + 1) {
      assert CardSound(cards[k], sales, last);
    }
    forall k: string | k in cards ensures cards[k].sale != Some(x) {
      assert CardSound(cards[k], sales, last);
    }
  }

  lemma ReturnKeepsCards(cards: Cards, sales: map<SaleId, Sale>, last: MovementId, x: SaleId, from: DeductedFrom, sale: Sale)
    requires CardsSound(cards, sales, last) && !sale.consumed
    ensures CardsSound(ReturnCards(cards, x, from, last + 1), sales[x := sale], last + 1)
  {
    var after := ReturnCards(cards, x, from, last + 1);
    forall k: string | k in after
      ensures CardSound(after[k], sales[x := sale], last + 1) && (after[k].sale.Some? ==> after[k].sale == cards[k].sale)
    {
      assert CardSound(cards[k], sales, last);
    }
  }

  function PayingCustomer(s: Stock, payer: string): Option<CustomerId> {
    match Resolve(s.customers, payer)
    case Known(customer) => Some(customer)
    case _ => None
  }

  /** The tables with the customer's row created, as the deduction first looks there. */
  function Readied(s: Stock, payer: string, line: LineId): Stock {
    match Resolve(s.customers, payer)
    case Known(customer) => s.(rows := Touch(s.rows, HeldPool(s.lines, customer, line)))
    case _ => s
  }

  function StockOf(pool: Pool): DeductedFrom {
    if pool.Held? then CustomerStock else MainStock
  }

  /** A deduction takes its SIM from the row the preview names. */
  lemma ConsumeFollowsThePreview(s: Stock, x: SaleId)
    requires x in s.sales && s.sales[x].isNewSim && !s.sales[x].consumed
    ensures var sale := s.sales[x];
            match PreviewDeduction(s, sale.payer, sale.line)
            case AmbiguousName => Consume(s, x) == Failure(AmbiguousPayer)
            case FromPool(pool, _) =>
              var line := StockLine(s.lines, sale.line);
              Consume(s, x) == ConsumeFrom(Readied(s, sale.payer, line), x, line, pool, StockOf(pool), PayingCustomer(s, sale.payer))
  {
  }

  lemma PreviewedPool(s: Stock, payer: string, line: LineId)
    ensures match PreviewDeduction(s, payer, line)
            case AmbiguousName => true
            case FromPool(pool, available) =>
              && available == Qty(s.rows, pool) && pool.line == StockLine(s.lines, line)
              && (pool.Held? ==> PayingCustomer(s, payer) == Some(pool.customer))
  {
    StockLineIsIdempotent(s.lines, line);
  }

  /** What one deduction writes down. */
  ghost predicate Deducted(s: Stock, s': Stock, x: SaleId, line: LineId, pool: Pool, customer: Option<CustomerId>)
    requires x in s.sales
  {
    var m := Movement(s.last + 1, SaleConsume, line, 1, Some(pool), None, customer, Some(x));
    var sale := s.sales[x].(consumed := true, deductedFrom := StockOf(pool), movement := Some(m.id));
    && s'.log == s.log + [m] && s'.last == m.id && s'.lines == s.lines && s'.sales == s.sales[x := sale]
    && pool.line == line && (pool.Held? ==> customer == Some(pool.customer))
    && TakeCard(s.cards, Strip(s.sales[x].serial), line, StockOf(pool), customer, x, m.id) == Success(s'.cards)
  }

  lemma DeductionIsRecorded(s: Stock, x: SaleId, line: LineId, pool: Pool, customer: Option<CustomerId>)
    requires x in s.sales && ConsumeFrom(s, x, line, pool, StockOf(pool), customer).Success?
    requires pool.line == line == StockLine(s.lines, line) && (pool.Held? ==> customer == Some(pool.customer))
    ensures Deducted(s, ConsumeFrom(s, x, line, pool, StockOf(pool), customer).value, x, line, pool, customer)
  {
  }

  lemma ConsumptionIsRecorded(s: Stock, x: SaleId)
    requires x in s.sales && s.sales[x].isNewSim && !s.sales[x].consumed && Consume(s, x).Success?
    ensures PreviewDeduction(s, s.sales[x].payer, s.sales[x].line).FromPool?
    ensures Deducted(s, Consume(s, x).value, x, StockLine(s.lines, s.sales[x].line),
                     PreviewDeduction(s, s.sales[x].payer, s.sales[x].line).pool, PayingCustomer(s, s.sales[x].payer))
  {
    var payer, pk := s.sales[x].payer, s.sales[x].line;
    ConsumeFollowsThePreview(s, x);
    PreviewedPool(s, payer, pk);
    StockLineIsIdempotent(s.lines, pk);
    DeductionIsRecorded(Readied(s, payer, StockLine(s.lines, pk)), x, StockLine(s.lines, pk), PreviewDeduction(s, payer, pk).pool, PayingCustomer(s, payer));
  }

  lemma DeductionConsumes(s: Stock, s': Stock, x: SaleId, line: LineId, pool: Pool, customer: Option<CustomerId>)
    requires x in s.sales && Deducted(s, s', x, line, pool, customer)
    ensures IsConsumed(s'.sales, x) && |s'.log| == |s.log| + 1 && s'.log[|s.log|].line == line
    ensures ConsumedBy(s'.sales[x], x, s'.log[|s.log|]) && DebitedPool(s'.sales[x], s'.log[|s.log|]) == pool
  {
  }

  lemma DeductionKeepsSales(s: Stock, s': Stock, x: SaleId, line: LineId, pool: Pool, customer: Option<CustomerId>)
    requires SalesSound(s) && x in s.sales && !s.sales[x].consumed && Deducted(s, s', x, line, pool, customer)
    ensures SalesSound(s')
  {
    DeductionConsumes(s, s', x, line, pool, customer);
    ConsumedNow(s.sales, s.log, x, s'.sales[x], s'.log[|s.log|]);
    TakeKeepsCards(s.cards, s.sales, s.last, Strip(s.sales[x].serial), line, StockOf(pool), customer, x, s'.sales[x]);
  }

  lemma ConsumeKeepsSales(s: Stock, x: SaleId)
    requires SalesSound(s) && Consume(s, x).Success?
    ensures SalesSound(Consume(s, x).value)
  {
    var sale := s.sales[x];
    if sale.isNewSim && !sale.consumed {
      ConsumptionIsRecorded(s, x);
      DeductionKeepsSales(s, Consume(s, x).value, x, StockLine(s.lines, sale.line),
                          PreviewDeduction(s, sale.payer, sale.line).pool, PayingCustomer(s, sale.payer));
    }
  }

  function Cleared(sale: Sale): Sale {
    sale.(consumed := false, deductedFrom := Nowhere, movement := None)
  }

  /** What a reversal writes down. */
  ghost predicate Reversed(s: Stock, s': Stock, x: SaleId)
    requires x in s.sales
  {
    && |s'.log| == |s.log| + 1 && s'.log[..|s.log|] == s.log && s'.last == s.last + 1
    && s'.log[|s.log|].sale == Some(x) && s'.log[|s.log|].kind.SaleReversal?
    && s'.sales == s.sales[x := Cleared(s.sales[x])]
    && s'.cards == ReturnCards(s.cards, x, s.sales[x].deductedFrom, s.last + 1)
  }

  lemma ReversalIsRecorded(s: Stock, x: SaleId, pool: Pool, customer: Option<CustomerId>)
    requires x in s.sales
    ensures Reversed(s, ReverseTo(s, x, pool, customer), x)
  {
  }

  lemma ReversedKeepsSales(s: Stock, s': Stock, x: SaleId)
    requires SalesSound(s) && IsConsumed(s.sales, x) && Reversed(s, s', x)
    ensures SalesSound(s')
  {
    NotConsumedNow(s.sales, s.log, x, Cleared(s.sales[x]), s'.log[|s.log|]);
    assert s'.log == s.log + [s'.log[|s.log|]];
    ReturnKeepsCards(s.cards, s.sales, s.last, x, s.sales[x].deductedFrom, Cleared(s.sales[x]));
  }

  lemma ReverseToKeepsSales(s: Stock, x: SaleId, pool: Pool, customer: Option<CustomerId>)
    requires SalesSound(s) && IsConsumed(s.sales, x)
    ensures SalesSound(ReverseTo(s, x, pool, customer))
  {
    ReversalIsRecorded(s, x, pool, customer);
    ReversedKeepsSales(s, ReverseTo(s, x, pool, customer), x);
  }

  lemma ReverseKeepsSales(s: Stock, x: SaleId)
    requires Sound(s) && Reverse(s, x).Success?
    ensures SalesSound(Reverse(s, x).value)
  {
    var sale := s.sales[x];
    if sale.consumed && !sale.deductedFrom.Nowhere? {
      var line := StockLine(s.lines, sale.line);
      var customer := CreditedCustomer(s, sale);
      if sale.deductedFrom.MainStock? {
        ReverseToKeepsSales(s, x, MainPool(s.lines, line), None);
      } else if customer.Some? {
        ReverseToKeepsSales(s, x, HeldPool(s.lines, customer.value, line), customer);
      }
    }
  }

  lemma EditKeepsSales(s: Stock, x: SaleId, isNewSim: bool, line: LineId, payer: string, serial: string)
    requires Sound(s)
    ensures var s' := EditSale(s, x, isNewSim, line, payer, serial); SalesSound(s')
  {
    var s' := EditSale(s, x, isNewSim, line, payer, serial);
    forall y: SaleId ensures IsConsumed(s'.sales, y) == IsConsumed(s.sales, y) {
    }
    forall y: SaleId ensures Sum(s'.log, Count(y)) == if IsConsumed(s'.sales, y) then 1 else 0 {
      assert Sum(s.log, Count(y)) == if IsConsumed(s.sales, y) then 1 else 0;
    }
    forall y | y in s'.sales ensures SaleSound(y, s'.sales[y], s'.log) {
      if y in s.sales && s.sales[y].consumed {
        var m: Movement :| m in s.log && ConsumedBy(s.sales[y], y, m);
        assert ConsumedBy(s'.sales[y], y, m);
      }
    }
    forall k: string | k in s'.cards ensures CardSound(s'.cards[k], s'.sales, s'.last) {
      assert CardSound(s.cards[k], s.sales, s.last);
    }
  }

  lemma OpKeepsSound(s: Stock, op: Op)
    requires Sound(s)
    ensures Sound(Apply(s, op))
  {
    OpKeepsStock(s, op);
    if Outcome(s, op).Success? {
      match op {
        case OpReceive(line, quantity, serials) => ReceiveKeepsSales(s, line, quantity, serials);
        case OpAllocate(customer, line, quantity, serials) => AllocateKeepsSales(s, customer, line, quantity, serials);
        case OpReturn(customer, line, quantity, serials) => ReturnKeepsSales(s, customer, line, quantity, serials);
        case OpConsume(x) => ConsumeKeepsSales(s, x);
        case OpReverse(x) => ReverseKeepsSales(s, x);
        case OpDeleteRow(_) => DeletionKeepsSales(s, op);
        case OpDeleteMovement(_) => DeletionKeepsSales(s, op);
        case OpEditSale(x, isNewSim, line, payer, serial) => EditKeepsSales(s, x, isNewSim, line, payer, serial);
        case OpEditLines(_) =>
        case OpEditCustomers(_) =>
        case _ => CorrectionKeepsSales(s, op);
      }
    }
  }

  lemma {:induction false} RunKeepsSound(s: Stock, ops: seq<Op>)
    requires Sound(s)
    ensures Sound(Run(s, ops))
  {
    if |ops| > 0 {
      RunKeepsSound(s, ops[..|ops| - 1]);
      OpKeepsSound(Run(s, ops[..|ops| - 1]), ops[|ops| - 1]);
    }
  }

  /** In every run a sale has one more consuming movement than reversals while it is consumed, and as many otherwise. */
  lemma ConsumedOnceMoreThanReversed(ops: seq<Op>, x: SaleId)
    ensures var s := Run(EmptyStock(), ops); Sum(s.log, Count(x)) == if IsConsumed(s.sales, x) then 1 else 0
  {
    RunKeepsSound(EmptyStock(), ops);
  }

  // ---- where a reversal goes -------------------------------------------------------------

  lemma FoundByItsId(s: Stock, m: Movement)
    requires InOrder(s.log, s.last) && m in s.log
    ensures IndexOf(s.log, m.id) < |s.log| && s.log[IndexOf(s.log, m.id)] == m
  {
    var i :| 0 <= i < |s.log| && s.log[i] == m;
    var k := IndexOf(s.log, m.id);
  }

  /** The row a reversal credits. */
  function CreditedPool(s: Stock, sale: Sale, m: Movement): Pool {
    DebitedPool(sale, m.(line := StockLine(s.lines, sale.line)))
  }

  /**
   * A consumed sale can always be reversed; one SIM goes back, and it goes to the row it came from
   * exactly when the sale's line still stands for the line it was taken under.
   */
  lemma ReversalCreditsTheDebitedPool(s: Stock, x: SaleId, m: Movement)
    requires Sound(s) && IsConsumed(s.sales, x) && m in s.log && ConsumedBy(s.sales[x], x, m)
    ensures Reverse(s, x).Success?
    ensures forall p: Pool :: Qty(Reverse(s, x).value.rows, p) == Qty(s.rows, p) + if p == CreditedPool(s, s.sales[x], m) then 1 else 0
    ensures CreditedPool(s, s.sales[x], m) == DebitedPool(s.sales[x], m) <==> StockLine(s.lines, s.sales[x].line) == m.line
  {
    var sale := s.sales[x];
    StockLineIsIdempotent(s.lines, sale.line);
    FoundByItsId(s, m);
    assert SaleSound(x, sale, s.log);
    assert sale.deductedFrom.CustomerStock? ==> CreditedCustomer(s, sale) == m.customer;
    forall p: Pool ensures Qty(Reverse(s, x).value.rows, p) == Qty(s.rows, p) + if p == CreditedPool(s, sale, m) then 1 else 0 {
      PutQty(s.rows, Some(CreditedPool(s, sale, m)), 1, p);
    }
  }

  // ---- the preview and the deduction --------------------------------------------------------

  /** The card a sale names is where the preview says the SIM comes from. */
  ghost predicate CardReady(s: Stock, sale: Sale, pool: Pool) {
    var serial := Strip(sale.serial);
    serial == "" || CardAtHand(s.cards, serial, StockLine(s.lines, sale.line), if pool.Held? then CustomerStock else MainStock, Owner(pool))
  }

  ghost predicate TakesOne(s: Stock, s': Stock, pool: Pool) {
    forall p: Pool :: Qty(s'.rows, p) == Qty(s.rows, p) - if p == pool then 1 else 0
  }

  lemma ConsumeFromIff(s: Stock, x: SaleId, line: LineId, pool: Pool, from: DeductedFrom, customer: Option<CustomerId>)
    requires x in s.sales
    ensures var serial := Strip(s.sales[x].serial); var after := ConsumeFrom(s, x, line, pool, from, customer);
            && (after.Success? <==> Qty(s.rows, pool) >= 1 && (serial == "" || CardAtHand(s.cards, serial, line, from, customer)))
            && (after.Success? ==> TakesOne(s, after.value, pool))
  {
  }

  /**
   * For a New SIM sale not yet consumed, the deduction goes through exactly when the preview shows
   * one available and any card the sale names is there; it then takes one SIM from the previewed row.
   */
  lemma PreviewPredictsConsume(s: Stock, x: SaleId)
    requires x in s.sales && s.sales[x].isNewSim && !s.sales[x].consumed
    ensures var preview := PreviewDeduction(s, s.sales[x].payer, s.sales[x].line);
            && (Consume(s, x).Success? <==> Available(preview) >= 1 && CardReady(s, s.sales[x], preview.pool))
            && (Consume(s, x).Success? ==> TakesOne(s, Consume(s, x).value, preview.pool))
  {
    var sale := s.sales[x];
    ConsumeFollowsThePreview(s, x);
    PreviewedPool(s, sale.payer, sale.line);
    if PreviewDeduction(s, sale.payer, sale.line).FromPool? {
      var pool := PreviewDeduction(s, sale.payer, sale.line).pool;
      var line := StockLine(s.lines, sale.line);
      var s1 := Readied(s, sale.payer, line);
      assert forall p: Pool :: Qty(s1.rows, p) == Qty(s.rows, p);
      ConsumeFromIff(s1, x, line, pool, StockOf(pool), PayingCustomer(s, sale.payer));
    }
  }

  // ---- what each operation does to each pool --------------------------------------------

  /** How much the operation is to add to pool `p`. */
  function Change(s: Stock, op: Op, p: Pool): int {
    match op
    case OpReceive(line, quantity, _) => if p == Main(StockLine(s.lines, line)) then quantity else 0
    case OpAllocate(customer, line, quantity, _) =>
      if p.line != StockLine(s.lines, line) then 0 else if p.Main? then -quantity else if p.customer == customer then quantity else 0
    case OpReturn(customer, line, quantity, _) =>
      if p.line != StockLine(s.lines, line) then 0 else if p.Main? then quantity else if p.customer == customer then -quantity else 0
    case OpSetQuantity(pool, quantity, _, _) => if p == pool then quantity - Qty(s.rows, pool) else 0
    case OpClear(pool, _) => if p == pool then -Qty(s.rows, pool) else 0
    case OpAdjust(pool, delta, _) => if p == pool then delta else 0
    case OpDamaged(pool, quantity) => if p == pool then -quantity else 0
    case OpSellManually(pool, quantity) => if p == pool then -quantity else 0
    case OpDeleteMovement(id) => if IndexOf(s.log, id) < |s.log| then -Net(s.log[IndexOf(s.log, id)], p) else 0
    case _ => 0
  }

  predicate MovesStock(op: Op) {
    op.OpReceive? || op.OpAllocate? || op.OpReturn?
  }

  /** Receipts, transfers, corrections, losses and deletions change the quantities they name, by what they name, and no other. */
  lemma QuantitiesChangeAsAsked(s: Stock, op: Op, p: Pool)
    requires Outcome(s, op).Success? && !op.OpConsume? && !op.OpReverse?
    ensures Qty(Outcome(s, op).value.rows, p) == Qty(s.rows, p) + Change(s, op, p)
  {
    if MovesStock(op) {
      TransfersChangeAsAsked(s, op, p);
    } else if op.OpSetQuantity? || op.OpClear? || op.OpAdjust? {
      CorrectionsChangeAsAsked(s, op, p);
    } else if op.OpDamaged? || op.OpSellManually? {
      WithdrawChanges(s, if op.OpDamaged? then DamagedStock else ManualSale, op.pool, op.quantity, p);
    } else if op.OpDeleteRow? || op.OpDeleteMovement? {
      DeletionsChangeAsAsked(s, op, p);
    }
  }

  lemma CorrectedChanges(s: Stock, pool: Pool, delta: int, p: Pool)
    ensures Qty(Corrected(s, pool, delta).rows, p) == Qty(s.rows, p) + if p == pool then delta else 0
  {
  }

  lemma SetQuantityChanges(s: Stock, pool: Pool, quantity: int, reason: string, requireReason: bool, p: Pool)
    requires SetQuantity(s, pool, quantity, reason, requireReason).Success?
    ensures Qty(SetQuantity(s, pool, quantity, reason, requireReason).value.rows, p)
         == Qty(s.rows, p) + if p == pool then quantity - Qty(s.rows, pool) else 0
  {
    CorrectedChanges(s, pool, quantity - s.rows[pool], p);
  }

  lemma CorrectionsChangeAsAsked(s: Stock, op: Op, p: Pool)
    requires Outcome(s, op).Success? && (op.OpSetQuantity? || op.OpClear? || op.OpAdjust?)
    ensures Qty(Outcome(s, op).value.rows, p) == Qty(s.rows, p) + Change(s, op, p)
  {
    match op
    case OpSetQuantity(pool, quantity, reason, requireReason) => SetQuantityChanges(s, pool, quantity, reason, requireReason, p);
    case OpClear(pool, reason) => SetQuantityChanges(s, pool, 0, if reason == "" then "Cleared for testing" else reason, true, p);
    case OpAdjust(pool, delta, _) => CorrectedChanges(s, pool, delta, p);
  }

  lemma WithdrawChanges(s: Stock, kind: Kind, pool: Pool, quantity: int, p: Pool)
    requires Withdraw(s, kind, pool, quantity).Success?
    ensures Qty(Withdraw(s, kind, pool, quantity).value.rows, p) == Qty(s.rows, p) - if p == pool then quantity else 0
  {
  }

  lemma DeletionsChangeAsAsked(s: Stock, op: Op, p: Pool)
    requires Outcome(s, op).Success? && (op.OpDeleteRow? || op.OpDeleteMovement?)
    ensures Qty(Outcome(s, op).value.rows, p) == Qty(s.rows, p) + Change(s, op, p)
  {
  }

  lemma TransfersChangeAsAsked(s: Stock, op: Op, p: Pool)
    requires Outcome(s, op).Success? && MovesStock(op)
    ensures Qty(Outcome(s, op).value.rows, p) == Qty(s.rows, p) + Change(s, op, p)
  {
    StockLineIsIdempotent(s.lines, op.line);
  }

  // ---- a reversal undoes the deduction ----------------------------------------------------

  /** A card without the trace of its last movement. */
  function Whereabouts(card: Card): Card {
    card.(movement := None)
  }

  ghost predicate SameWhereabouts(cards: Cards, cards': Cards) {
    && cards.Keys == cards'.Keys
    && (forall k: string :: k in cards ==> Whereabouts(cards'[k]) == Whereabouts(cards[k]))
  }

  lemma CardsComeBack(cards: Cards, sales: map<SaleId, Sale>, last: MovementId, serial: string, line: LineId,
                      from: DeductedFrom, customer: Option<CustomerId>, x: SaleId, movement: MovementId)
    requires CardsSound(cards, sales, last) && !IsConsumed(sales, x) && !from.Nowhere?
    requires TakeCard(cards, serial, line, from, customer, x, last + 1).Success?
    ensures SameWhereabouts(cards, ReturnCards(TakeCard(cards, serial, line, from, customer, x, last + 1).value, x, from, movement))
  {
    var taken := TakeCard(cards, serial, line, from, customer, x, last + 1).value;
    var back := ReturnCards(taken, x, from, movement);
    forall k: string | k in cards ensures k in back && Whereabouts(back[k]) == Whereabouts(cards[k]) {
      assert CardSound(cards[k], sales, last);
    }
  }

  lemma ReversedSale(s: Stock, x: SaleId)
    requires IsConsumed(s.sales, x) && !s.sales[x].deductedFrom.Nowhere? && Reverse(s, x).Success?
    ensures Reversed(s, Reverse(s, x).value, x)
  {
  }

  /** Reversing at once gives back the SIM, the card and the sale as they were. */
  lemma ReverseUndoesConsume(s: Stock, x: SaleId)
    requires Sound(s) && x in s.sales && s.sales[x].isNewSim && !s.sales[x].consumed && Consume(s, x).Success?
    ensures Reverse(Consume(s, x).value, x).Success?
    ensures var s' := Reverse(Consume(s, x).value, x).value;
            && (forall p: Pool :: Qty(s'.rows, p) == Qty(s.rows, p))
            && SameWhereabouts(s.cards, s'.cards) && s'.sales == s.sales
  {
    OpKeepsSound(s, OpConsume(x));
    PreviewPredictsConsume(s, x);
    ConsumptionIsRecorded(s, x);
    ReverseUndoesDeduction(s, Consume(s, x).value, x, StockLine(s.lines, s.sales[x].line),
                           PreviewDeduction(s, s.sales[x].payer, s.sales[x].line).pool, PayingCustomer(s, s.sales[x].payer));
  }

  lemma ReverseUndoesDeduction(s: Stock, s1: Stock, x: SaleId, line: LineId, pool: Pool, customer: Option<CustomerId>)
    requires Sound(s) && x in s.sales && !s.sales[x].consumed && Deducted(s, s1, x, line, pool, customer)
    requires Sound(s1) && line == StockLine(s.lines, s.sales[x].line) && TakesOne(s, s1, pool)
    ensures Reverse(s1, x).Success?
    ensures var s' := Reverse(s1, x).value;
            && (forall p: Pool :: Qty(s'.rows, p) == Qty(s.rows, p))
            && SameWhereabouts(s.cards, s'.cards) && s'.sales == s.sales
  {
    DeductionConsumes(s, s1, x, line, pool, customer);
    var m := s1.log[|s.log|];
    assert m in s1.log;
    ReversalCreditsTheDebitedPool(s1, x, m);
    ReversedSale(s1, x);
    ReversalClears(s, s1, Reverse(s1, x).value, x, line, pool, customer);
  }

  lemma ReversalClears(s: Stock, s1: Stock, s': Stock, x: SaleId, line: LineId, pool: Pool, customer: Option<CustomerId>)
    requires SalesSound(s) && x in s.sales && !s.sales[x].consumed && Deducted(s, s1, x, line, pool, customer)
    requires Reversed(s1, s', x)
    ensures SameWhereabouts(s.cards, s'.cards) && s'.sales == s.sales
  {
    CardsComeBack(s.cards, s.sales, s.last, Strip(s.sales[x].serial), line, StockOf(pool), customer, x, s1.last + 1);
    assert SaleSound(x, s.sales[x], s.log);
    assert Cleared(s1.sales[x]) == s.sales[x];
  }

  // ---- a reversal after anything else ---------------------------------------------------------

  lemma ExtensionKeepsLinks(s: Stock, s': Stock, m: Movement)
    requires Extends(s, s') && m in s.log
    ensures Survives(m, s'.log)
  {
    var i :| 0 <= i < |s.log| && s.log[i] == m;
    assert s'.log[..|s.log|][i] == m;
    assert m in s'.log && SameButUnlinked(m, m);
  }

  lemma DeletionKeepsLinks(s: Stock, op: Op, m: Movement)
    requires StockSound(s) && m in s.log && m.kind.SaleConsume?
    requires (op.OpDeleteRow? || op.OpDeleteMovement?) && Outcome(s, op).Success?
    ensures Survives(m, Apply(s, op).log)
  {
    if op.OpDeleteRow? {
      UnlinkSurvives(s.log, op.pool);
    } else {
      var k := IndexOf(s.log, op.id);
      assert MovementSound(s.rows, s.log[k]);
      RemoveSurvives(s.log, k);
    }
  }

  lemma OpKeepsLinks(s: Stock, op: Op, m: Movement)
    requires StockSound(s) && m in s.log && m.kind.SaleConsume?
    ensures Survives(m, Apply(s, op).log)
  {
    if (op.OpDeleteRow? || op.OpDeleteMovement?) && Outcome(s, op).Success? {
      DeletionKeepsLinks(s, op, m);
    } else if op.OpDeleteRow? || op.OpDeleteMovement? {
      assert SameButUnlinked(m, m);
    } else {
      OpExtendsLog(s, op);
      ExtensionKeepsLinks(s, Apply(s, op), m);
    }
  }

  lemma StillSurvives(s: Stock, op: Op, m: Movement)
    requires StockSound(s) && Survives(m, s.log) && m.kind.SaleConsume?
    ensures Survives(m, Apply(s, op).log)
  {
    var n: Movement :| n in s.log && SameButUnlinked(m, n);
    OpKeepsLinks(s, op, n);
    var n': Movement :| n' in Apply(s, op).log && SameButUnlinked(n, n');
    assert SameButUnlinked(m, n');
  }

  lemma {:induction false} RunKeepsLinks(s: Stock, ops: seq<Op>, m: Movement)
    requires StockSound(s) && m in s.log && m.kind.SaleConsume?
    ensures Survives(m, Run(s, ops).log)
  {
    if |ops| == 0 {
      assert SameButUnlinked(m, m);
    } else {
      RunKeepsLinks(s, ops[..|ops| - 1], m);
      RunKeepsStock(s, ops[..|ops| - 1]);
      StillSurvives(Run(s, ops[..|ops| - 1]), ops[|ops| - 1], m);
    }
  }

  /** The consumption that movement `id` recorded still stands. */
  predicate Stands(s: Stock, x: SaleId, id: MovementId, from: DeductedFrom) {
    IsConsumed(s.sales, x) && s.sales[x].movement == Some(id) && s.sales[x].deductedFrom == from
  }

  predicate StillMovement(s: Stock, x: SaleId, id: MovementId) {
    IsConsumed(s.sales, x) && s.sales[x].movement == Some(id)
  }

  lemma ConsumeTouchesOneSale(s: Stock, y: SaleId, x: SaleId)
    ensures x != y ==> (x in s.sales <==> x in Apply(s, OpConsume(y)).sales)
    ensures x != y && x in s.sales ==> Apply(s, OpConsume(y)).sales[x] == s.sales[x]
    ensures x == y ==> Apply(s, OpConsume(y)).sales == s.sales || StillMovement(Apply(s, OpConsume(y)), x, s.last + 1)
  {
    if Consume(s, y).Success? && s.sales[y].isNewSim && !s.sales[y].consumed {
      ConsumptionIsRecorded(s, y);
    }
  }

  lemma ConsumptionStoodBefore(s: Stock, op: Op, x: SaleId, id: MovementId)
    requires id <= s.last && StillMovement(Apply(s, op), x, id)
    ensures Stands(s, x, id, Apply(s, op).sales[x].deductedFrom)
  {
    if op.OpConsume? {
      ConsumeTouchesOneSale(s, op.x, x);
    }
  }

  lemma LastGrows(s: Stock, op: Op)
    ensures s.last <= Apply(s, op).last
  {
    if !op.OpDeleteRow? && !op.OpDeleteMovement? {
      OpExtendsLog(s, op);
    }
  }

  lemma {:induction false} ConsumptionStands(s: Stock, ops: seq<Op>, x: SaleId, id: MovementId)
    requires id <= s.last && StillMovement(Run(s, ops), x, id)
    ensures s.last <= Run(s, ops).last
    ensures Stands(s, x, id, Run(s, ops).sales[x].deductedFrom)
    decreases |ops|
  {
    if |ops| > 0 {
      var before := Run(s, ops[..|ops| - 1]);
      RunLastGrows(s, ops[..|ops| - 1]);
      LastGrows(before, ops[|ops| - 1]);
      ConsumptionStoodBefore(before, ops[|ops| - 1], x, id);
      ConsumptionStands(s, ops[..|ops| - 1], x, id);
    }
  }

  lemma {:induction false} RunLastGrows(s: Stock, ops: seq<Op>)
    ensures s.last <= Run(s, ops).last
  {
    if |ops| > 0 {
      RunLastGrows(s, ops[..|ops| - 1]);
      LastGrows(Run(s, ops[..|ops| - 1]), ops[|ops| - 1]);
    }
  }

  ghost predicate GivesOne(s: Stock, s': Stock, pool: Pool) {
    forall p: Pool :: Qty(s'.rows, p) == Qty(s.rows, p) + if p == pool then 1 else 0
  }

  /**
   * Whatever happens between a deduction and its reversal, the reversal goes through, and it gives
   * the SIM back to the row it came from exactly when the sale's line stands for the same pool as then.
   */
  lemma ReversalAfterAnyRun(s: Stock, ops: seq<Op>, x: SaleId)
    requires Sound(s) && x in s.sales && s.sales[x].isNewSim && !s.sales[x].consumed && Consume(s, x).Success?
    requires StillMovement(Run(Consume(s, x).value, ops), x, s.last + 1)
    ensures var s' := Run(Consume(s, x).value, ops);
            && Reverse(s', x).Success?
            && (GivesOne(s', Reverse(s', x).value, PreviewDeduction(s, s.sales[x].payer, s.sales[x].line).pool)
                <==> StockLine(s'.lines, s'.sales[x].line) == StockLine(s.lines, s.sales[x].line))
  {
    var s1 := Consume(s, x).value;
    ConsumptionIsRecorded(s, x);
    OpKeepsSound(s, OpConsume(x));
    ReversalAfterDeduction(s, s1, ops, x, StockLine(s.lines, s.sales[x].line),
                           PreviewDeduction(s, s.sales[x].payer, s.sales[x].line).pool, PayingCustomer(s, s.sales[x].payer));
  }

  lemma ReversalAfterDeduction(s: Stock, s1: Stock, ops: seq<Op>, x: SaleId, line: LineId, pool: Pool, customer: Option<CustomerId>)
    requires Sound(s1) && x in s.sales && Deducted(s, s1, x, line, pool, customer)
    requires StillMovement(Run(s1, ops), x, s.last + 1)
    ensures var s' := Run(s1, ops);
            && Reverse(s', x).Success?
            && (GivesOne(s', Reverse(s', x).value, pool) <==> StockLine(s'.lines, s'.sales[x].line) == line)
  {
    var s' := Run(s1, ops);
    DeductionConsumes(s, s1, x, line, pool, customer);
    var m := s1.log[|s.log|];
    RunKeepsSound(s1, ops);
    ConsumptionStands(s1, ops, x, s.last + 1);
    RunKeepsLinks(s1, ops, m);
    var n: Movement :| n in s'.log && SameButUnlinked(m, n);
    assert ConsumedBy(s'.sales[x], x, n);
    ReversalCreditsTheDebitedPool(s', x, n);
    var credited := CreditedPool(s', s'.sales[x], n);
    assert GivesOne(s', Reverse(s', x).value, credited);
    if GivesOne(s', Reverse(s', x).value, pool) {
      assert Qty(Reverse(s', x).value.rows, pool) == Qty(s'.rows, pool) + 1;
    }
  }
}
