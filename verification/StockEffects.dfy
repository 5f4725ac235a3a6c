/**
 * What each stock service accepts and what it writes, said of its arguments and of the tables
 * before it: the refusals exactly, the movement logged, and every card.
 */
module StockEffects {
  import opened Wrappers
  import opened Sums
  import opened ProductLines
  import opened SimStock
  import opened StockRuns
  import opened StockSales

  // ---- receipts and transfers ----------------------------------------------------------------

  ghost predicate Named(serials: seq<string>, key: string) {
    exists i :: 0 <= i < |serials| && Upper(serials[i]) == key
  }

  /** No serials at all, or one for each SIM, all different whatever their case. */
  ghost predicate SerialsFit(serials: seq<string>, quantity: int) {
    serials == [] || (|serials| == quantity && forall i, j :: 0 <= i < j < |serials| ==> Upper(serials[i]) != Upper(serials[j]))
  }

  lemma NamedTail(serials: seq<string>, key: string)
    requires |serials| > 0
    ensures Named(serials, key) <==> Upper(serials[0]) == key || Named(serials[1..], key)
  {
    if Named(serials[1..], key) {
      var i :| 0 <= i < |serials[1..]| && Upper(serials[1..][i]) == key;
      assert serials[i + 1] == serials[1..][i];
    }
    if Named(serials, key) {
      var i :| 0 <= i < |serials| && Upper(serials[i]) == key;
      assert i > 0 ==> serials[1..][i - 1] == serials[i];
    }
  }

  /** Every named card is the new one, every other card is as it was. */
  ghost predicate Registered(before: Cards, after: Cards, serials: seq<string>, card: Card) {
    && (forall key: string :: Named(serials, key) ==> key in after && after[key] == card)
    && (forall key: string :: !Named(serials, key) ==> (key in after <==> key in before) && (key in before ==> after[key] == before[key]))
  }

  lemma {:induction false} RegisterWrites(cards: Cards, serials: seq<string>, card: Card)
    requires Register(cards, serials, card).Success?
    ensures Registered(cards, Register(cards, serials, card).value, serials, card)
    decreases |serials|
  {
    if |serials| > 0 {
      var next := cards[Upper(serials[0]) := card];
      var after := Register(next, serials[1..], card).value;
      RegisterWrites(next, serials[1..], card);
      RegisterEffect(next, serials[1..], card);
      forall key: string
        ensures Named(serials, key) ==> key in after && after[key] == card
        ensures !Named(serials, key) ==> (key in after <==> key in cards) && (key in cards ==> after[key] == cards[key])
      {
        NamedTail(serials, key);
      }
    }
  }

  /** A receipt goes through exactly when it is of something, its serials fit, and none of them is taken. */
  lemma ReceiveIff(s: Stock, line: LineId, quantity: int, serials: seq<string>)
    ensures Receive(s, line, quantity, serials).Success?
       <==> quantity >= 1 && SerialsFit(serials, quantity) && forall i :: 0 <= i < |serials| ==> Upper(serials[i]) !in s.cards
  {
    var l := StockLine(s.lines, line);
    RegisterIff(s.cards, serials, Card(l, InMain, None, None, Some(s.last + 1)));
    assert serials == [] ==> NoTwoAlike(serials);
  }

  /** It registers each serial, in main stock and under its movement, and leaves every other card alone. */
  lemma ReceiptRegistersItsCards(s: Stock, line: LineId, quantity: int, serials: seq<string>, s': Stock)
    requires Receive(s, line, quantity, serials) == Success(s')
    ensures forall i :: 0 <= i < |serials| ==> Upper(serials[i]) in s'.cards
    ensures forall i :: 0 <= i < |serials| ==>
              s'.cards[Upper(serials[i])] == Card(StockLine(s.lines, line), InMain, None, None, Some(s.last + 1))
    ensures forall key: string :: !Named(serials, key) ==>
              (key in s'.cards <==> key in s.cards) && (key in s.cards ==> s'.cards[key] == s.cards[key])
    ensures s'.log == s.log + [Movement(s.last + 1, MainReceive, StockLine(s.lines, line), quantity, None,
                                        Some(Main(StockLine(s.lines, line))), None, None)]
    ensures s' == s.(rows := s'.rows, log := s'.log, cards := s'.cards, last := s.last + 1)
  {
    StockLineIsIdempotent(s.lines, line);
    var card := Card(StockLine(s.lines, line), InMain, None, None, Some(s.last + 1));
    RegisterWrites(s.cards, serials, card);
    forall i | 0 <= i < |serials| ensures Upper(serials[i]) in s'.cards && s'.cards[Upper(serials[i])] == card {
      assert Named(serials, Upper(serials[i]));
    }
  }

  /** Each named card is of the line and has the status. */
  ghost predicate AllAt(cards: Cards, serials: seq<string>, line: LineId, status: CardStatus) {
    forall i :: 0 <= i < |serials| ==>
      Upper(serials[i]) in cards && cards[Upper(serials[i])].line == line && cards[Upper(serials[i])].status == status
  }

  /** Each named card moved, every other card is as it was. */
  ghost predicate CardsMoved(before: Cards, after: Cards, serials: seq<string>, status: CardStatus, customer: Option<CustomerId>, id: MovementId) {
    && after.Keys == before.Keys
    && (forall key: string :: key in before ==>
          after[key] == if Named(serials, key) then before[key].(status := status, customer := customer, movement := Some(id)) else before[key])
  }

  lemma {:induction false} MoveWrites(cards: Cards, serials: seq<string>, line: LineId, wanted: CardStatus,
                                      status: CardStatus, customer: Option<CustomerId>, id: MovementId)
    requires wanted != status && MoveCards(cards, serials, line, wanted, status, customer, id).Success?
    ensures CardsMoved(cards, MoveCards(cards, serials, line, wanted, status, customer, id).value, serials, status, customer, id)
    decreases |serials|
  {
    if |serials| > 0 {
      var k0 := Upper(serials[0]);
      var next := cards[k0 := MovedCard(cards[k0], status, customer, id)];
      var after := MoveCards(next, serials[1..], line, wanted, status, customer, id).value;
      MoveWrites(next, serials[1..], line, wanted, status, customer, id);
      forall key: string | key in cards
        ensures after[key] == if Named(serials, key) then MovedCard(cards[key], status, customer, id) else cards[key]
      {
        NamedTail(serials, key);
      }
    }
  }

  lemma MoveNeeds(cards: Cards, serials: seq<string>, quantity: int, line: LineId, wanted: CardStatus,
                  status: CardStatus, customer: Option<CustomerId>, id: MovementId)
    requires wanted != status && SerialProblem(serials, quantity).None?
    ensures MoveCards(cards, serials, line, wanted, status, customer, id).Success? <==> AllAt(cards, serials, line, wanted)
  {
    MoveCardsIff(cards, serials, line, wanted, status, customer, id);
  }

  lemma SerialsChecked(serials: seq<string>, quantity: int)
    ensures SerialProblem(serials, quantity).None? <==> SerialsFit(serials, quantity)
  {
  }

  /** An allocation goes through exactly when main stock has that many and every card named is there. */
  lemma AllocateIff(s: Stock, customer: CustomerId, line: LineId, quantity: int, serials: seq<string>)
    ensures Allocate(s, customer, line, quantity, serials).Success?
       <==> && quantity >= 1 && SerialsFit(serials, quantity) && Qty(s.rows, Main(StockLine(s.lines, line))) >= quantity
            && AllAt(s.cards, serials, StockLine(s.lines, line), InMain)
  {
    SerialsChecked(serials, quantity);
    StockLineIsIdempotent(s.lines, line);
    if SerialProblem(serials, quantity).None? {
      MoveNeeds(s.cards, serials, quantity, StockLine(s.lines, line), InMain, WithCustomer, Some(customer), s.last + 1);
    }
  }

  lemma AllocationMovesItsCards(s: Stock, customer: CustomerId, line: LineId, quantity: int, serials: seq<string>, s': Stock)
    requires Allocate(s, customer, line, quantity, serials) == Success(s')
    ensures CardsMoved(s.cards, s'.cards, serials, WithCustomer, Some(customer), s.last + 1)
    ensures s'.log == s.log + [Movement(s.last + 1, AllocateToCustomer, StockLine(s.lines, line), quantity, Some(Main(StockLine(s.lines, line))),
                                        Some(Held(customer, StockLine(s.lines, line))), Some(customer), None)]
    ensures s' == s.(rows := s'.rows, log := s'.log, cards := s'.cards, last := s.last + 1)
  {
    StockLineIsIdempotent(s.lines, line);
    MoveWrites(s.cards, serials, StockLine(s.lines, line), InMain, WithCustomer, Some(customer), s.last + 1);
  }

  /** A return goes through exactly when the customer holds that many and every card named is with some customer. */
  lemma ReturnIff(s: Stock, customer: CustomerId, line: LineId, quantity: int, serials: seq<string>)
    ensures Return(s, customer, line, quantity, serials).Success?
       <==> && quantity >= 1 && SerialsFit(serials, quantity) && Qty(s.rows, Held(customer, StockLine(s.lines, line))) >= quantity
            && AllAt(s.cards, serials, StockLine(s.lines, line), WithCustomer)
  {
    SerialsChecked(serials, quantity);
    StockLineIsIdempotent(s.lines, line);
    if SerialProblem(serials, quantity).None? {
      MoveNeeds(s.cards, serials, quantity, StockLine(s.lines, line), WithCustomer, InMain, None, s.last + 1);
    }
  }

  lemma ReturnMovesItsCards(s: Stock, customer: CustomerId, line: LineId, quantity: int, serials: seq<string>, s': Stock)
    requires Return(s, customer, line, quantity, serials) == Success(s')
    ensures CardsMoved(s.cards, s'.cards, serials, InMain, None, s.last + 1)
    ensures s'.log == s.log + [Movement(s.last + 1, ReturnFromCustomer, StockLine(s.lines, line), quantity, Some(Held(customer, StockLine(s.lines, line))),
                                        Some(Main(StockLine(s.lines, line))), Some(customer), None)]
    ensures s' == s.(rows := s'.rows, log := s'.log, cards := s'.cards, last := s.last + 1)
  {
    StockLineIsIdempotent(s.lines, line);
    MoveWrites(s.cards, serials, StockLine(s.lines, line), WithCustomer, InMain, None, s.last + 1);
  }

  // ---- corrections and losses --------------------------------------------------------------------

  /** When a correction or a loss is accepted. */
  predicate Correctable(s: Stock, op: Op)
    requires op.OpSetQuantity? || op.OpClear? || op.OpAdjust? || op.OpDamaged? || op.OpSellManually?
  {
    && op.pool in s.rows
    && match op
       case OpSetQuantity(pool, quantity, reason, requireReason) => quantity >= 0 && (requireReason ==> Strip(reason) != "")
       case OpClear(pool, reason) => reason != "" ==> Strip(reason) != ""
       case OpAdjust(pool, delta, reason) => delta != 0 && s.rows[pool] + delta >= 0 && Strip(reason) != ""
       case OpDamaged(pool, quantity) => 1 <= quantity <= s.rows[pool]
       case OpSellManually(pool, quantity) => 1 <= quantity <= s.rows[pool]
  }

  lemma ClearingIsAReason()
    ensures Strip("Cleared for testing") == "Cleared for testing"
  {
    StripTrimmed("Cleared for testing");
  }

  lemma CorrectionIff(s: Stock, op: Op)
    requires op.OpSetQuantity? || op.OpClear? || op.OpAdjust? || op.OpDamaged? || op.OpSellManually?
    ensures Outcome(s, op).Success? <==> Correctable(s, op)
  {
    ClearingIsAReason();
  }

  /** The movement that a correction of `delta` leaves in the log. */
  function CorrectionOf(s: Stock, pool: Pool, delta: int): Movement {
    var owner := if pool.Held? then Some(pool.customer) else None;
    if delta < 0 then Movement(s.last + 1, Adjustment, StockLine(s.lines, pool.line), -delta, Some(pool), None, owner, None)
    else Movement(s.last + 1, Adjustment, StockLine(s.lines, pool.line), delta, None, Some(pool), owner, None)
  }

  function LossOf(s: Stock, kind: Kind, pool: Pool, quantity: int): Movement {
    Movement(s.last + 1, kind, StockLine(s.lines, pool.line), quantity, Some(pool), None, if pool.Held? then Some(pool.customer) else None, None)
  }

  /** One movement more, and nothing else but the row it names. */
  predicate OnlyLogged(s: Stock, s': Stock, m: Movement) {
    s' == s.(rows := s'.rows, log := s.log + [m], last := s.last + 1)
  }

  /** Each of them logs the movement it is, and setting a row to what it holds logs nothing. */
  lemma CorrectionIsLogged(s: Stock, op: Op)
    requires op.OpSetQuantity? || op.OpClear? || op.OpAdjust? || op.OpDamaged? || op.OpSellManually?
    requires Outcome(s, op).Success?
    ensures op.pool in s.rows
    ensures var s' := Outcome(s, op).value;
            match op
            case OpSetQuantity(pool, quantity, _, _) =>
              if quantity == s.rows[pool] then s' == s else OnlyLogged(s, s', CorrectionOf(s, pool, quantity - s.rows[pool]))
            case OpClear(pool, _) => if s.rows[pool] == 0 then s' == s else OnlyLogged(s, s', CorrectionOf(s, pool, -s.rows[pool]))
            case OpAdjust(pool, delta, _) => OnlyLogged(s, s', CorrectionOf(s, pool, delta))
            case OpDamaged(pool, quantity) => OnlyLogged(s, s', LossOf(s, DamagedStock, pool, quantity))
            case OpSellManually(pool, quantity) => OnlyLogged(s, s', LossOf(s, ManualSale, pool, quantity))
  {
    match op
    case OpSetQuantity(pool, quantity, reason, requireReason) => SettingIsLogged(s, pool, quantity, reason, requireReason);
    case OpClear(pool, reason) => SettingIsLogged(s, pool, 0, if reason == "" then "Cleared for testing" else reason, true);
    case OpAdjust(pool, delta, _) => CorrectedIsLogged(s, pool, delta);
    case OpDamaged(pool, quantity) => LossIsLogged(s, DamagedStock, pool, quantity);
    case OpSellManually(pool, quantity) => LossIsLogged(s, ManualSale, pool, quantity);
  }

  lemma CorrectedIsLogged(s: Stock, pool: Pool, delta: int)
    ensures OnlyLogged(s, Corrected(s, pool, delta), CorrectionOf(s, pool, delta))
  {
  }

  lemma SettingIsLogged(s: Stock, pool: Pool, quantity: int, reason: string, requireReason: bool)
    requires SetQuantity(s, pool, quantity, reason, requireReason).Success?
    ensures pool in s.rows
    ensures var s' := SetQuantity(s, pool, quantity, reason, requireReason).value;
            if quantity == s.rows[pool] then s' == s else OnlyLogged(s, s', CorrectionOf(s, pool, quantity - s.rows[pool]))
  {
    CorrectedIsLogged(s, pool, quantity - s.rows[pool]);
  }

  lemma LossIsLogged(s: Stock, kind: Kind, pool: Pool, quantity: int)
    requires Withdraw(s, kind, pool, quantity).Success?
    ensures pool in s.rows && OnlyLogged(s, Withdraw(s, kind, pool, quantity).value, LossOf(s, kind, pool, quantity))
  {
  }

  // ---- deletions ---------------------------------------------------------------------------------

  /** Only an empty row goes; every movement stays, without its reference to the row. */
  lemma DeletedRowIsUnlinked(s: Stock, pool: Pool)
    ensures DeleteRow(s, pool).Success? <==> pool in s.rows && s.rows[pool] == 0
    ensures DeleteRow(s, pool).Success? ==>
              var s' := DeleteRow(s, pool).value;
              && s' == s.(rows := s.rows - {pool}, log := s'.log) && |s'.log| == |s.log|
              && forall i :: 0 <= i < |s.log| ==>
                   s'.log[i] == s.log[i].(source := if s.log[i].source == Some(pool) then None else s.log[i].source,
                                          target := if s.log[i].target == Some(pool) then None else s.log[i].target)
  {
  }

  ghost predicate FirstAt(log: seq<Movement>, id: MovementId, k: nat) {
    k < |log| && log[k].id == id && forall i :: 0 <= i < k ==> log[i].id != id
  }

  /**
   * A movement is deleted exactly when it is in the log, belongs to no sale, and the row it filled
   * still holds as much. It leaves the log, and the cards it moved last are put back.
   */
  lemma MovementIsDeletedIff(s: Stock, id: MovementId)
    ensures DeleteMovement(s, id).Success?
       <==> exists k: nat :: FirstAt(s.log, id, k) && Deletable(s.rows, s.log[k])
  {
    var k := IndexOf(s.log, id);
    if k < |s.log| {
      assert FirstAt(s.log, id, k);
    }
    if DeleteMovement(s, id).Success? {
      assert Deletable(s.rows, s.log[k]);
    }
  }

  predicate Deletable(rows: map<Pool, int>, m: Movement) {
    && !m.kind.SaleConsume? && !m.kind.SaleReversal?
    && (m.target.Some? ==> m.quantity <= if m.target.value in rows then rows[m.target.value] else 0)
  }

  lemma DeletedMovementPutsCardsBack(s: Stock, id: MovementId, k: nat, s': Stock)
    requires DeleteMovement(s, id) == Success(s') && FirstAt(s.log, id, k)
    ensures s' == s.(rows := s'.rows, log := s.log[..k] + s.log[k + 1..], cards := s'.cards)
    ensures forall key: string :: key in s'.cards <==> key in s.cards && !(s.log[k].kind.MainReceive? && s.cards[key].movement == Some(id))
    ensures forall key: string :: key in s'.cards ==>
              s'.cards[key] ==
                if s.cards[key].movement != Some(id) then s.cards[key]
                else match s.log[k].kind
                     case AllocateToCustomer => s.cards[key].(status := InMain, customer := None, movement := None)
                     case ReturnFromCustomer => s.cards[key].(status := WithCustomer, customer := s.log[k].customer, movement := None)
                     case _ => s.cards[key].(movement := None)
  {
    assert IndexOf(s.log, id) == k;
  }

  // ---- payers and the preview ----------------------------------------------------------------------

  /** Row `i` of the customer table is an active customer of that name, whatever its case. */
  predicate IsCalled(customers: seq<Customer>, i: nat, name: string) {
    i < |customers| && customers[i].active && Upper(customers[i].name) == Upper(name)
  }

  lemma {:induction false} FilterFinds(customers: seq<Customer>, name: string)
    ensures var found := Filter(customers, Called(name));
            && (|found| == 0 <==> forall i: nat :: !IsCalled(customers, i, name))
            && (|found| == 1 ==> exists i: nat :: IsCalled(customers, i, name) && customers[i] == found[0]
                                   && forall j: nat :: IsCalled(customers, j, name) ==> j == i)
            && (|found| > 1 ==> exists i: nat, j: nat :: i < j && IsCalled(customers, i, name) && IsCalled(customers, j, name))
  {
    if |customers| > 0 {
      var rest := customers[1..];
      FilterFinds(rest, name);
      assert forall i: nat :: IsCalled(rest, i, name) <==> IsCalled(customers, i + 1, name);
      var found := Filter(rest, Called(name));
      if IsCalled(customers, 0, name) {
        if |found| > 0 {
          SomeoneIsCalled(rest, name);
          var j: nat :| IsCalled(rest, j, name);
          assert IsCalled(customers, j + 1, name);
        } else {
          assert forall j: nat :: IsCalled(customers, j, name) ==> j == 0 || IsCalled(rest, j - 1, name);
        }
      } else {
        FilterSkips(customers, name);
      }
    }
  }

  lemma SomeoneIsCalled(customers: seq<Customer>, name: string)
    requires |Filter(customers, Called(name))| > 0
    ensures exists i: nat :: IsCalled(customers, i, name)
  {
    FilterMembers(customers, Called(name));
    var c := Filter(customers, Called(name))[0];
    assert c in Filter(customers, Called(name));
    var i :| 0 <= i < |customers| && customers[i] == c;
    assert IsCalled(customers, i, name);
  }

  lemma FilterSkips(customers: seq<Customer>, name: string)
    requires |customers| > 0 && !IsCalled(customers, 0, name)
    requires var found := Filter(customers[1..], Called(name));
             && (|found| == 0 <==> forall i: nat :: !IsCalled(customers[1..], i, name))
             && (|found| == 1 ==> exists i: nat :: IsCalled(customers[1..], i, name) && customers[1..][i] == found[0]
                                    && forall j: nat :: IsCalled(customers[1..], j, name) ==> j == i)
             && (|found| > 1 ==> exists i: nat, j: nat :: i < j && IsCalled(customers[1..], i, name) && IsCalled(customers[1..], j, name))
    ensures var found := Filter(customers, Called(name));
            && (|found| == 0 <==> forall i: nat :: !IsCalled(customers, i, name))
            && (|found| == 1 ==> exists i: nat :: IsCalled(customers, i, name) && customers[i] == found[0]
                                   && forall j: nat :: IsCalled(customers, j, name) ==> j == i)
            && (|found| > 1 ==> exists i: nat, j: nat :: i < j && IsCalled(customers, i, name) && IsCalled(customers, j, name))
  {
    var rest := customers[1..];
    var found := Filter(rest, Called(name));
    assert Filter(customers, Called(name)) == found;
    if |found| == 1 {
      var i: nat :| IsCalled(rest, i, name) && rest[i] == found[0] && forall j: nat :: IsCalled(rest, j, name) ==> j == i;
      assert IsCalled(customers, i + 1, name);
      forall j: nat | IsCalled(customers, j, name) ensures j == i + 1 {
        assert IsCalled(rest, j - 1, name);
      }
    } else if |found| > 1 {
      var i: nat, j: nat :| i < j && IsCalled(rest, i, name) && IsCalled(rest, j, name);
      assert IsCalled(customers, i + 1, name) && IsCalled(customers, j + 1, name);
    } else {
      forall i: nat ensures !IsCalled(customers, i, name) {
        assert i > 0 ==> !IsCalled(rest, i - 1, name);
      }
    }
  }

  /**
   * The payer of a sale is the one active customer of that name, surrounding blanks and case aside;
   * with two of them the name is ambiguous, and with none, or no name, nobody is meant.
   */
  lemma PayerMeaning(customers: seq<Customer>, payer: string)
    ensures var name := Strip(payer);
            match Resolve(customers, payer)
            case NoCustomer => name == "" || forall i: nat :: !IsCalled(customers, i, name)
            case Ambiguous => name != "" && exists i: nat, j: nat :: i < j && IsCalled(customers, i, name) && IsCalled(customers, j, name)
            case Known(c) => name != "" && exists i: nat :: IsCalled(customers, i, name) && customers[i].pk == c
                                             && forall j: nat :: IsCalled(customers, j, name) ==> j == i
  {
    FilterFinds(customers, Strip(payer));
  }

  /** The preview names the payer's own stock if any is left there, and else main stock, with what is left. */
  lemma PreviewMeaning(s: Stock, payer: string, line: LineId)
    ensures var l, preview := StockLine(s.lines, line), PreviewDeduction(s, payer, line);
            match Resolve(s.customers, payer)
            case Ambiguous => preview == AmbiguousName
            case NoCustomer => preview == FromPool(Main(l), Qty(s.rows, Main(l)))
            case Known(c) =>
              preview == if Qty(s.rows, Held(c, l)) >= 1 then FromPool(Held(c, l), Qty(s.rows, Held(c, l))) else FromPool(Main(l), Qty(s.rows, Main(l)))
  {
    StockLineIsIdempotent(s.lines, line);
  }

  // ---- the card of a sale ---------------------------------------------------------------------------

  /** A sale of anything but a New SIM, or one already deducted, changes nothing; neither does reversing what was not deducted. */
  lemma NothingToDo(s: Stock, x: SaleId)
    ensures x !in s.sales ==> Consume(s, x) == Failure(NoSuchSale) && Reverse(s, x) == Failure(NoSuchSale)
    ensures x in s.sales && (!s.sales[x].isNewSim || s.sales[x].consumed) ==> Consume(s, x) == Success(s)
    ensures x in s.sales && !s.sales[x].consumed ==> Reverse(s, x) == Success(s)
  {
  }

  /**
   * A deduction marks the sale with the row it took from and with its movement, and takes the card
   * the sale names, from main stock or from the payer, as the row is; every other card stays.
   */
  lemma SaleTakesItsCard(s: Stock, x: SaleId, s': Stock)
    requires x in s.sales && s.sales[x].isNewSim && !s.sales[x].consumed && Consume(s, x) == Success(s')
    ensures PreviewDeduction(s, s.sales[x].payer, s.sales[x].line).FromPool?
    ensures var pool, l := PreviewDeduction(s, s.sales[x].payer, s.sales[x].line).pool, StockLine(s.lines, s.sales[x].line);
            var from := if pool.Held? then CustomerStock else MainStock;
            && s'.sales == s.sales[x := s.sales[x].(consumed := true, deductedFrom := from, movement := Some(s.last + 1))]
            && s'.log == s.log + [Movement(s.last + 1, SaleConsume, l, 1, Some(pool), None, PayingCustomer(s, s.sales[x].payer), Some(x))]
    ensures Strip(s.sales[x].serial) == "" ==> s'.cards == s.cards
    ensures Strip(s.sales[x].serial) != "" ==>
              var pool, l := PreviewDeduction(s, s.sales[x].payer, s.sales[x].line).pool, StockLine(s.lines, s.sales[x].line);
              var key := Upper(Strip(s.sales[x].serial));
              && key in s.cards && s.cards[key].line == l
              && (if pool.Held? then s.cards[key].status.WithCustomer? && s.cards[key].customer == Some(pool.customer) else s.cards[key].status.InMain?)
              && s'.cards == s.cards[key := Card(l, Consumed, PayingCustomer(s, s.sales[x].payer), Some(x), Some(s.last + 1))]
  {
    ConsumptionIsRecorded(s, x);
    PreviewedPool(s, s.sales[x].payer, s.sales[x].line);
  }

  /** A reversal gives the sale's cards back, to the customer they came from or to main stock, and clears the sale. */
  lemma ReversalReturnsItsCards(s: Stock, x: SaleId, s': Stock)
    requires Sound(s) && IsConsumed(s.sales, x) && Reverse(s, x) == Success(s')
    ensures |s'.log| == |s.log| + 1 && s'.log[|s.log|].target.Some?
    ensures var pool := s'.log[|s.log|].target.value;
            && s'.log == s.log + [Movement(s.last + 1, SaleReversal, StockLine(s.lines, s.sales[x].line), 1, None, Some(pool),
                                           if pool.Held? then Some(pool.customer) else None, Some(x))]
            && pool.line == StockLine(s.lines, s.sales[x].line) && (pool.Held? <==> s.sales[x].deductedFrom.CustomerStock?)
    ensures s'.sales == s.sales[x := s.sales[x].(consumed := false, deductedFrom := Nowhere, movement := None)]
    ensures s'.cards.Keys == s.cards.Keys
    ensures forall key: string :: key in s.cards ==>
              s'.cards[key] ==
                if s.cards[key].sale != Some(x) then s.cards[key]
                else if s.sales[x].deductedFrom.CustomerStock? then
                  s.cards[key].(status := WithCustomer, sale := None, movement := Some(s.last + 1))
                else s.cards[key].(status := InMain, customer := None, sale := None, movement := Some(s.last + 1))
  {
    assert SaleSound(x, s.sales[x], s.log);
    ReversedSale(s, x);
    StockLineIsIdempotent(s.lines, s.sales[x].line);
  }

  ghost predicate CardStays(s: Stock, s': Stock, key: string) {
    key in s.cards ==> key in s'.cards && s'.cards[key] == s.cards[key]
  }

  lemma TransfersSpareSoldCards(s: Stock, op: Op, key: string)
    requires Sound(s) && key in s.cards && s.cards[key].sale.Some? && (op.OpReceive? || op.OpAllocate? || op.OpReturn?)
    ensures CardStays(s, Apply(s, op), key)
  {
    assert CardSound(s.cards[key], s.sales, s.last);
    if Outcome(s, op).Success? {
      match op
      case OpReceive(line, quantity, serials) =>
        RegisterEffect(s.cards, serials, Card(StockLine(s.lines, line), InMain, None, None, Some(s.last + 1)));
      case OpAllocate(customer, line, quantity, serials) =>
        MoveCardsEffect(s.cards, serials, StockLine(s.lines, line), InMain, WithCustomer, Some(customer), s.last + 1);
      case OpReturn(customer, line, quantity, serials) =>
        MoveCardsEffect(s.cards, serials, StockLine(s.lines, line), WithCustomer, InMain, None, s.last + 1);
    }
  }

  lemma DeletionsSpareSoldCards(s: Stock, op: Op, key: string)
    requires Sound(s) && key in s.cards && s.cards[key].sale.Some? && (op.OpDeleteRow? || op.OpDeleteMovement?)
    ensures CardStays(s, Apply(s, op), key)
  {
    if op.OpDeleteMovement? && Outcome(s, op).Success? {
      UndoKeepsCards(s, IndexOf(s.log, op.id));
    }
  }

  lemma SalesSpareSoldCards(s: Stock, op: Op, x: SaleId, key: string)
    requires Sound(s) && key in s.cards && s.cards[key].sale == Some(x) && (op.OpConsume? || (op.OpReverse? && op.x != x))
    ensures CardStays(s, Apply(s, op), key)
  {
    assert CardSound(s.cards[key], s.sales, s.last);
    if Outcome(s, op).Success? {
      NothingToDo(s, op.x);
      if op.OpConsume? && s.sales[op.x].isNewSim && !s.sales[op.x].consumed {
        SaleTakesItsCard(s, op.x, Consume(s, op.x).value);
      } else if op.OpReverse? && s.sales[op.x].consumed {
        ReversalReturnsItsCards(s, op.x, Reverse(s, op.x).value);
      }
    }
  }

  lemma CorrectionsSpareCards(s: Stock, op: Op)
    requires op.OpSetQuantity? || op.OpClear? || op.OpAdjust? || op.OpDamaged? || op.OpSellManually?
    ensures Apply(s, op).cards == s.cards
  {
    if Outcome(s, op).Success? {
      CorrectionIsLogged(s, op);
    }
  }

  /** Only the reversal of its own sale moves a sold card. */
  lemma SoldCardStaysOnce(s: Stock, op: Op, x: SaleId, key: string)
    requires Sound(s) && key in s.cards && s.cards[key].sale == Some(x) && op != OpReverse(x)
    ensures CardStays(s, Apply(s, op), key)
  {
    if op.OpReceive? || op.OpAllocate? || op.OpReturn? {
      TransfersSpareSoldCards(s, op, key);
    } else if op.OpDeleteRow? || op.OpDeleteMovement? {
      DeletionsSpareSoldCards(s, op, key);
    } else if op.OpConsume? || op.OpReverse? {
      SalesSpareSoldCards(s, op, x, key);
    } else if op.OpEditLines? || op.OpEditCustomers? || op.OpEditSale? {
      assert Apply(s, op).cards == s.cards;
    } else {
      CorrectionsSpareCards(s, op);
    }
  }

  /** Until its sale is reversed, a sold card stays sold, whatever is received, moved, corrected, deleted, sold or edited. */
  lemma {:induction false} SoldCardStays(s: Stock, ops: seq<Op>, x: SaleId, key: string)
    requires Sound(s) && key in s.cards && s.cards[key].sale == Some(x) && forall n :: 0 <= n < |ops| ==> ops[n] != OpReverse(x)
    ensures key in Run(s, ops).cards && Run(s, ops).cards[key] == s.cards[key]
    decreases |ops|
  {
    if |ops| > 0 {
      var before := ops[..|ops| - 1];
      SoldCardStays(s, before, x, key);
      RunKeepsSound(s, before);
      SoldCardStaysOnce(Run(s, before), ops[|ops| - 1], x, key);
    }
  }
}
