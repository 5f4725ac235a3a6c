/**
 * Deleting movements after the fact: what an undo puts back, when it is refused, and what it cannot restore.
 */
module StockUndo {
  import opened Wrappers
  import opened Sums
  import opened ProductLines
  import opened SimStock
  import opened StockRuns
  import opened StockSales

  // ---- undoing the newest movements -----------------------------------------------

  function Newest(log: seq<Movement>): MovementId
    requires |log| > 0
  {
    log[|log| - 1].id
  }

  function UndoNewest(s: Stock, k: nat): Result<Stock, Fault>
    decreases k
  {
    if k == 0 then Success(s)
    else if |s.log| == 0 then Failure(NoSuchMovement)
    else
      match DeleteMovement(s, Newest(s.log))
      case Failure(e) => Failure(e)
      case Success(s') => UndoNewest(s', k - 1)
  }

  /** What the log says the target of its `i`-th movement held just before that movement. */
  predicate TargetWasFilled(log: seq<Movement>, i: nat)
    requires i < |log|
  {
    log[i].target.Some? ==> Sum(log[..i], Effect(log[i].target.value)) >= 0
  }

  ghost predicate NoneSaleLinked(log: seq<Movement>, from: nat) {
    forall i :: from <= i < |log| ==> !IsSaleLinked(log[i])
  }

  lemma NewestIsFound(s: Stock)
    requires InOrder(s.log, s.last) && |s.log| > 0
    ensures IndexOf(s.log, Newest(s.log)) == |s.log| - 1
  {
  }

  lemma NewestFilled(s: Stock)
    requires StockSound(s) && |s.log| > 0
    ensures var m := s.log[|s.log| - 1];
            m.target.Some? ==> (Qty(s.rows, m.target.value) >= m.quantity <==> TargetWasFilled(s.log, |s.log| - 1))
  {
    var k := |s.log| - 1;
    var m := s.log[k];
    assert MovementSound(s.rows, m);
    if m.target.Some? {
      assert s.log == s.log[..k] + [m];
      SumAppend(s.log[..k], m, Effect(m.target.value));
      assert Qty(s.rows, m.target.value) == Sum(s.log, Effect(m.target.value));
    }
  }

  lemma UndoNewestOnce(s: Stock)
    requires StockSound(s) && |s.log| > 0 && !IsSaleLinked(s.log[|s.log| - 1])
    ensures DeleteMovement(s, Newest(s.log)).Success? <==> TargetWasFilled(s.log, |s.log| - 1)
    ensures DeleteMovement(s, Newest(s.log)).Success? ==>
              StockSound(DeleteMovement(s, Newest(s.log)).value) && DeleteMovement(s, Newest(s.log)).value.log == s.log[..|s.log| - 1]
  {
    var k := |s.log| - 1;
    var m := s.log[k];
    NewestIsFound(s);
    NewestFilled(s);
    assert s.log[..k] + s.log[k + 1..] == s.log[..k];
    if DeleteMovement(s, m.id).Success? {
      DeleteMovementKeepsStock(s, m.id);
    }
  }

  lemma NewestIsDropped(s: Stock, next: Stock)
    requires InOrder(s.log, s.last) && |s.log| > 0 && DeleteMovement(s, Newest(s.log)) == Success(next)
    ensures next.last == s.last && next.log == s.log[..|s.log| - 1] && InOrder(next.log, next.last)
    ensures next.cards == UndoCards(s.cards, s.log[|s.log| - 1])
  {
    NewestIsFound(s);
    assert s.log[..|s.log| - 1] + s.log[|s.log|..] == s.log[..|s.log| - 1];
  }

  ghost predicate TargetsWereFilled(log: seq<Movement>, from: nat) {
    forall i :: from <= i < |log| ==> TargetWasFilled(log, i)
  }

  /** The log is `log`, and the rows hold what it says. */
  ghost predicate BackTo(s: Stock, log: seq<Movement>) {
    StockSound(s) && s.log == log
  }

  lemma ShorterLog(log: seq<Movement>, shorter: seq<Movement>, from: nat)
    requires from < |log| && shorter == log[..|log| - 1]
    ensures NoneSaleLinked(log, from) ==> NoneSaleLinked(shorter, from)
    ensures TargetsWereFilled(log, from) <==> TargetsWereFilled(shorter, from) && TargetWasFilled(log, |log| - 1)
    ensures shorter[..from] == log[..from]
  {
    forall i | from <= i < |shorter| ensures shorter[i] == log[i] && (TargetWasFilled(shorter, i) <==> TargetWasFilled(log, i)) {
      assert shorter[..i] == log[..i];
    }
  }

  lemma UndoNewestUnfolds(s: Stock, k: nat)
    requires 0 < k <= |s.log|
    ensures UndoNewest(s, k) ==
            if DeleteMovement(s, Newest(s.log)).Success? then UndoNewest(DeleteMovement(s, Newest(s.log)).value, k - 1)
            else DeleteMovement(s, Newest(s.log))
  {
  }

  /** The newest `k` movements were recorded by hand, on sound tables. */
  ghost predicate Undoable(s: Stock, k: nat) {
    StockSound(s) && k <= |s.log| && NoneSaleLinked(s.log, |s.log| - k)
  }

  /** Undoing the newest movement, and then the others. */
  lemma UndoStep(s: Stock, k: nat) returns (next: Stock)
    requires 0 < k && Undoable(s, k)
    ensures TargetWasFilled(s.log, |s.log| - 1) ==> Undoable(next, k - 1) && UndoNewest(s, k) == UndoNewest(next, k - 1)
    ensures !TargetWasFilled(s.log, |s.log| - 1) ==> UndoNewest(s, k).Failure? && !TargetsWereFilled(s.log, |s.log| - k)
    ensures TargetWasFilled(s.log, |s.log| - 1) ==>
              (TargetsWereFilled(s.log, |s.log| - k) <==> TargetsWereFilled(next.log, |next.log| - (k - 1)))
              && s.log[..|s.log| - k] == next.log[..|next.log| - (k - 1)]
  {
    UndoNewestOnce(s);
    ShorterLog(s.log, s.log[..|s.log| - 1], |s.log| - k);
    UndoNewestUnfolds(s, k);
    next := DeleteMovement(s, Newest(s.log)).Or(s);
  }

  lemma UndoNothing(s: Stock, t: Stock)
    requires Undoable(s, 0) && UndoNewest(s, 0) == Success(t)
    ensures BackTo(t, s.log[..|s.log|])
  {
    assert s.log[..|s.log|] == s.log;
  }

  lemma {:induction false} UndoNewestGoesBack(s: Stock, k: nat, t: Stock)
    requires Undoable(s, k) && UndoNewest(s, k) == Success(t)
    ensures BackTo(t, s.log[..|s.log| - k])
    decreases k
  {
    if k == 0 {
      UndoNothing(s, t);
    } else {
      var next := UndoStep(s, k);
      UndoNewestGoesBack(next, k - 1, t);
    }
  }

  /**
   * Undoing the newest `k` movements, newest first, is refused exactly when the log, cut just before
   * one of them, leaves the row that movement filled below zero.
   */
  lemma {:induction false} UndoNewestIff(s: Stock, k: nat)
    requires Undoable(s, k)
    ensures UndoNewest(s, k).Success? <==> TargetsWereFilled(s.log, |s.log| - k)
    decreases k
  {
    if k > 0 {
      var next := UndoStep(s, k);
      if TargetWasFilled(s.log, |s.log| - 1) {
        UndoNewestIff(next, k - 1);
      }
    }
  }

  // ---- undoing a run ------------------------------------------------------------------

  /** Everything but deletions and the stock side of sales. */
  predicate RecordsOnly(op: Op) {
    !op.OpDeleteRow? && !op.OpDeleteMovement? && !op.OpConsume? && !op.OpReverse?
  }

  ghost predicate Recordings(ops: seq<Op>) {
    forall n :: 0 <= n < |ops| ==> RecordsOnly(ops[n])
  }

  lemma RecordedIsNotSaleLinked(s: Stock, op: Op)
    requires RecordsOnly(op) && |s.log| < |Apply(s, op).log|
    ensures |Apply(s, op).log| == |s.log| + 1 && !IsSaleLinked(Apply(s, op).log[|s.log|])
  {
    OpExtendsLog(s, op);
  }

  /** The log continues `base` with movements recorded by hand, each when the row it filled held what the log says. */
  ghost predicate RecordedSince(base: seq<Movement>, log: seq<Movement>) {
    |base| <= |log| && log[..|base|] == base && NoneSaleLinked(log, |base|) && TargetsWereFilled(log, |base|)
  }

  /** Each movement a run records was recorded when the log was consistent with non-negative rows. */
  lemma {:induction false} RunFillsTargets(s: Stock, ops: seq<Op>)
    requires StockSound(s) && Recordings(ops)
    ensures RecordedSince(s.log, Run(s, ops).log)
  {
    if |ops| > 0 {
      var before, op := Run(s, ops[..|ops| - 1]), ops[|ops| - 1];
      RunFillsTargets(s, ops[..|ops| - 1]);
      RunKeepsStock(s, ops[..|ops| - 1]);
      RecordingFillsTarget(s.log, before, op);
    } else {
      assert s.log[..|s.log|] == s.log;
    }
  }

  lemma RecordingFillsTarget(base: seq<Movement>, before: Stock, op: Op)
    requires StockSound(before) && RecordsOnly(op) && RecordedSince(base, before.log)
    ensures RecordedSince(base, Apply(before, op).log)
  {
    var log, n := Apply(before, op).log, |before.log|;
    OpExtendsLog(before, op);
    assert log[..n][..|base|] == log[..|base|];
    if |log| > n {
      RecordedIsNotSaleLinked(before, op);
    }
    forall i | |base| <= i < |log| ensures TargetWasFilled(log, i) && !IsSaleLinked(log[i]) {
      if i < n {
        assert log[..n][i] == log[i] && log[..n][..i] == log[..i];
        assert TargetWasFilled(before.log, i) && !IsSaleLinked(before.log[i]);
      } else if log[i].target.Some? {
        assert Qty(before.rows, log[i].target.value) == Sum(before.log, Effect(log[i].target.value));
      }
    }
  }

  /**
   * From any sound tables, everything a run of recordings logged can be undone newest first, never
   * refused, and every pool is back to what it held before the run.
   */
  lemma RunIsUndone(s: Stock, ops: seq<Op>)
    requires StockSound(s) && Recordings(ops)
    ensures |s.log| <= |Run(s, ops).log|
    ensures var undone := UndoNewest(Run(s, ops), |Run(s, ops).log| - |s.log|);
            undone.Success? && undone.value.log == s.log && SameQuantities(s.rows, undone.value.rows)
  {
    RunKeepsStock(s, ops);
    RunFillsTargets(s, ops);
    LogIsUndone(s, Run(s, ops));
  }

  lemma LogIsUndone(s: Stock, s': Stock)
    requires StockSound(s) && StockSound(s') && RecordedSince(s.log, s'.log)
    ensures var undone := UndoNewest(s', |s'.log| - |s.log|);
            undone.Success? && undone.value.log == s.log && SameQuantities(s.rows, undone.value.rows)
  {
    var k := |s'.log| - |s.log|;
    UndoNewestIff(s', k);
    UndoNewestGoesBack(s', k, UndoNewest(s', k).value);
    SameLogSameQuantities(s, UndoNewest(s', k).value);
  }

  ghost predicate SameQuantities(rows: map<Pool, int>, rows': map<Pool, int>) {
    forall p: Pool :: Qty(rows', p) == Qty(rows, p)
  }

  lemma SameLogSameQuantities(s: Stock, t: Stock)
    requires StockSound(s) && StockSound(t) && t.log == s.log
    ensures SameQuantities(s.rows, t.rows)
  {
    forall p: Pool ensures Qty(t.rows, p) == Qty(s.rows, p) {
      assert Qty(s.rows, p) == Sum(s.log, Effect(p)) && Qty(t.rows, p) == Sum(t.log, Effect(p));
    }
  }

  lemma RunStep(s: Stock, ops: seq<Op>, op: Op, before: Stock, after: Stock)
    requires Run(s, ops) == before && Outcome(before, op) == Success(after)
    ensures Run(s, ops + [op]) == after
  {
    assert (ops + [op])[..|ops|] == ops;
  }

  /** Main stock of one line with the given quantity, log and cards, and nothing else. */
  function MainOnly(line: LineId, quantity: int, log: seq<Movement>, last: MovementId): Stock {
    Stock([], [], map[Main(line) := quantity], log, map[], map[], last)
  }

  function Received(id: MovementId, line: LineId, quantity: int): Movement {
    Movement(id, MainReceive, line, quantity, None, Some(Main(line)), None, None)
  }

  function Damaged(id: MovementId, line: LineId, quantity: int): Movement {
    Movement(id, DamagedStock, line, quantity, Some(Main(line)), None, None, None)
  }

  lemma ReceiveOnEmptyShelf(line: LineId, quantity: int)
    requires quantity > 0
    ensures Receive(EmptyStock(), line, quantity, []) == Success(MainOnly(line, quantity, [Received(1, line, quantity)], 1))
  {
    assert StockLine([], line) == line;
    var s := Receive(EmptyStock(), line, quantity, []).value;
    assert s.rows == map[Main(line) := quantity] && s.log == [Received(1, line, quantity)];
  }

  lemma ReceiveMore(line: LineId, had: int, log: seq<Movement>, last: MovementId, quantity: int)
    requires quantity > 0
    ensures Receive(MainOnly(line, had, log, last), line, quantity, []) ==
            Success(MainOnly(line, had + quantity, log + [Received(last + 1, line, quantity)], last + 1))
  {
    assert StockLine([], line) == line;
    var s := Receive(MainOnly(line, had, log, last), line, quantity, []).value;
    assert s.rows == map[Main(line) := had + quantity] && s.log == log + [Received(last + 1, line, quantity)];
  }

  lemma DamageSome(line: LineId, had: int, log: seq<Movement>, last: MovementId, quantity: int)
    requires 0 < quantity <= had
    ensures MarkDamaged(MainOnly(line, had, log, last), Main(line), quantity) ==
            Success(MainOnly(line, had - quantity, log + [Damaged(last + 1, line, quantity)], last + 1))
  {
    assert StockLine([], line) == line;
    var s := MarkDamaged(MainOnly(line, had, log, last), Main(line), quantity).value;
    assert s.rows == map[Main(line) := had - quantity] && s.log == log + [Damaged(last + 1, line, quantity)];
  }

  lemma DeleteFirstReceipt(line: LineId, had: int, log: seq<Movement>, last: MovementId)
    requires |log| > 0 && log[0] == Received(1, line, 5) && had >= 5
    ensures DeleteMovement(MainOnly(line, had, log, last), 1) == Success(MainOnly(line, had - 5, log[1..], last))
  {
    assert IndexOf(log, 1) == 0 && log[..0] + log[1..] == log[1..];
    var s := DeleteMovement(MainOnly(line, had, log, last), 1).value;
    assert s.rows == map[Main(line) := had - 5] && s.cards == map[];
  }

  /**
   * An older deletion spoils this: receive five, write off three as damaged, receive five, delete
   * the first receipt; the newest movement can then not be undone.
   */
  lemma DeletionCanBlockOlderUndo(line: LineId) returns (ops: seq<Op>, s: Stock)
    ensures Run(EmptyStock(), ops) == s
    ensures |s.log| == 2 && NoneSaleLinked(s.log, 0) && UndoNewest(s, 1) == Failure(BelowZero)
  {
    var log3 := [Received(1, line, 5)] + [Damaged(2, line, 3)] + [Received(3, line, 5)];
    var log4 := [Damaged(2, line, 3), Received(3, line, 5)];
    var before := ReceivedTwice(line);
    DeleteFirstReceipt(line, 7, log3, 3);
    assert log3[1..] == log4;
    s := MainOnly(line, 2, log4, 3);
    RunStep(EmptyStock(), before, OpDeleteMovement(1), MainOnly(line, 7, log3, 3), s);
    ops := before + [OpDeleteMovement(1)];
    LastIsRefused(line, log4);
  }

  lemma ReceivedTwice(line: LineId) returns (ops: seq<Op>)
    ensures Run(EmptyStock(), ops) == MainOnly(line, 7, [Received(1, line, 5)] + [Damaged(2, line, 3)] + [Received(3, line, 5)], 3)
  {
    var s0 := EmptyStock();
    var log1 := [Received(1, line, 5)];
    var log2 := log1 + [Damaged(2, line, 3)];
    ReceiveOnEmptyShelf(line, 5);
    RunStep(s0, [], OpReceive(line, 5, []), s0, MainOnly(line, 5, log1, 1));
    assert [] + [OpReceive(line, 5, [])] == [OpReceive(line, 5, [])];
    DamageSome(line, 5, log1, 1, 3);
    RunStep(s0, [OpReceive(line, 5, [])], OpDamaged(Main(line), 3), MainOnly(line, 5, log1, 1), MainOnly(line, 2, log2, 2));
    ReceiveMore(line, 2, log2, 2, 5);
    ops := [OpReceive(line, 5, [])] + [OpDamaged(Main(line), 3)];
    RunStep(s0, ops, OpReceive(line, 5, []), MainOnly(line, 2, log2, 2), MainOnly(line, 7, log2 + [Received(3, line, 5)], 3));
    ops := ops + [OpReceive(line, 5, [])];
  }

  lemma LastIsRefused(line: LineId, log: seq<Movement>)
    requires log == [Damaged(2, line, 3), Received(3, line, 5)]
    ensures UndoNewest(MainOnly(line, 2, log, 3), 1) == Failure(BelowZero)
  {
    assert IndexOf(log, 3) == 1;
  }

  // ---- cards ------------------------------------------------------------------------------

  /** The movement an operation has just logged can be deleted at once. */
  lemma OneRecordedUndone(s: Stock, op: Op)
    requires StockSound(s) && RecordsOnly(op) && |s.log| < |Apply(s, op).log|
    ensures var s1 := Apply(s, op);
            && |s1.log| == |s.log| + 1 && DeleteMovement(s1, s1.log[|s.log|].id).Success?
            && DeleteMovement(s1, s1.log[|s.log|].id).value.cards == UndoCards(s1.cards, s1.log[|s.log|])
  {
    var s1 := Apply(s, op);
    OpExtendsLog(s, op);
    OpKeepsStock(s, op);
    RecordedIsNotSaleLinked(s, op);
    RecordingFillsTarget(s.log, s, op);
    UndoNewestOnce(s1);
  }

  /** Deleting a receipt at once removes the cards it registered and no other. */
  lemma UndoReceiveRestoresCards(s: Stock, line: LineId, quantity: int, serials: seq<string>)
    requires Sound(s) && Receive(s, line, quantity, serials).Success?
    ensures var s1 := Receive(s, line, quantity, serials).value;
            DeleteMovement(s1, s1.last).Success? && DeleteMovement(s1, s1.last).value.cards == s.cards
  {
    var s1 := Receive(s, line, quantity, serials).value;
    RegisterEffect(s.cards, serials, Card(StockLine(s.lines, line), InMain, None, None, Some(s1.last)));
    OneRecordedUndone(s, OpReceive(line, quantity, serials));
    forall k: string | k in s.cards ensures s.cards[k].movement != Some(s1.last) {
      assert CardSound(s.cards[k], s.sales, s.last);
    }
  }

  lemma UndoMovedCards(cards: Cards, sales: map<SaleId, Sale>, last: MovementId, serials: seq<string>, line: LineId,
                       wanted: CardStatus, status: CardStatus, customer: Option<CustomerId>, m: Movement)
    requires CardsSound(cards, sales, last) && m.id == last + 1 && wanted != status
    requires MoveCards(cards, serials, line, wanted, status, customer, m.id).Success?
    requires if wanted.InMain? then m.kind.AllocateToCustomer? else m.kind.ReturnFromCustomer? && wanted.WithCustomer?
    ensures var back := UndoCards(MoveCards(cards, serials, line, wanted, status, customer, m.id).value, m);
            SameWhereabouts(cards, back)
            <==> (wanted.InMain? || forall i :: 0 <= i < |serials| ==>
                    Upper(serials[i]) in cards && cards[Upper(serials[i])].customer == m.customer)
  {
    MoveCardsEffect(cards, serials, line, wanted, status, customer, m.id);
    var moved := MoveCards(cards, serials, line, wanted, status, customer, m.id).value;
    var back := UndoCards(moved, m);
    MovedOnlyListed(cards, serials, line, wanted, status, customer, m.id);
    forall k: string | k in cards ensures CardSound(cards[k], sales, last) && cards[k].movement != Some(m.id) {
    }
    forall i | 0 <= i < |serials|
      ensures Whereabouts(back[Upper(serials[i])]) == cards[Upper(serials[i])].(movement := None, customer := if wanted.InMain? then None else m.customer)
    {
    }
  }

  lemma {:induction false} MovedOnlyListed(cards: Cards, serials: seq<string>, line: LineId, wanted: CardStatus,
                                           status: CardStatus, customer: Option<CustomerId>, movement: MovementId)
    requires MoveCards(cards, serials, line, wanted, status, customer, movement).Success?
    ensures forall k: string :: k in cards && (forall i :: 0 <= i < |serials| ==> Upper(serials[i]) != k) ==>
              k in MoveCards(cards, serials, line, wanted, status, customer, movement).value &&
              MoveCards(cards, serials, line, wanted, status, customer, movement).value[k] == cards[k]
    decreases |serials|
  {
    if |serials| > 0 {
      var key := Upper(serials[0]);
      MovedOnlyListed(cards[key := MovedCard(cards[key], status, customer, movement)], serials[1..], line, wanted, status, customer, movement);
      assert forall i :: 0 < i < |serials| ==> serials[i] == serials[1..][i - 1];
    }
  }

  /** Deleting an allocation at once puts every card it moved back in main stock, with no owner. */
  lemma UndoAllocateRestoresCards(s: Stock, customer: CustomerId, line: LineId, quantity: int, serials: seq<string>)
    requires Sound(s) && Allocate(s, customer, line, quantity, serials).Success?
    ensures var s1 := Allocate(s, customer, line, quantity, serials).value;
            DeleteMovement(s1, s1.last).Success? && SameWhereabouts(s.cards, DeleteMovement(s1, s1.last).value.cards)
  {
    var s1 := Allocate(s, customer, line, quantity, serials).value;
    OneRecordedUndone(s, OpAllocate(customer, line, quantity, serials));
    UndoMovedCards(s.cards, s.sales, s.last, serials, StockLine(s.lines, line), InMain, WithCustomer, Some(customer), s1.log[|s.log|]);
  }

  /** Deleting a return at once restores its cards exactly when each of them was with the customer named. */
  lemma UndoReturnRestoresCardsIff(s: Stock, customer: CustomerId, line: LineId, quantity: int, serials: seq<string>)
    requires Sound(s) && Return(s, customer, line, quantity, serials).Success?
    ensures var s1 := Return(s, customer, line, quantity, serials).value;
            && DeleteMovement(s1, s1.last).Success?
            && (SameWhereabouts(s.cards, DeleteMovement(s1, s1.last).value.cards)
                <==> forall i :: 0 <= i < |serials| ==> Upper(serials[i]) in s.cards && s.cards[Upper(serials[i])].customer == Some(customer))
  {
    var s1 := Return(s, customer, line, quantity, serials).value;
    OneRecordedUndone(s, OpReturn(customer, line, quantity, serials));
    MoveCardsEffect(s.cards, serials, StockLine(s.lines, line), WithCustomer, InMain, None, s1.last);
    UndoMovedCards(s.cards, s.sales, s.last, serials, StockLine(s.lines, line), WithCustomer, InMain, None, s1.log[|s.log|]);
  }

  lemma ThereAndBack(cards: Cards, serials: seq<string>, line: LineId, customer: CustomerId, out: Movement, back: Movement)
    requires MoveCards(cards, serials, line, InMain, WithCustomer, Some(customer), out.id).Success?
    requires var away := MoveCards(cards, serials, line, InMain, WithCustomer, Some(customer), out.id).value;
             MoveCards(away, serials, line, WithCustomer, InMain, None, back.id).Success?
    requires out.kind.AllocateToCustomer? && back.kind.ReturnFromCustomer? && back.customer == Some(customer) && out.id < back.id
    ensures var away := MoveCards(cards, serials, line, InMain, WithCustomer, Some(customer), out.id).value;
            var home := MoveCards(away, serials, line, WithCustomer, InMain, None, back.id).value;
            var undone := UndoCards(UndoCards(home, back), out);
            forall i :: 0 <= i < |serials| ==>
              At(cards, serials[i], line, InMain) && At(undone, serials[i], line, WithCustomer) && undone[Upper(serials[i])].customer == Some(customer)
  {
    var away := MoveCards(cards, serials, line, InMain, WithCustomer, Some(customer), out.id).value;
    MoveCardsEffect(cards, serials, line, InMain, WithCustomer, Some(customer), out.id);
    MoveCardsEffect(away, serials, line, WithCustomer, InMain, None, back.id);
  }

  /**
   * Undoing a return and then the allocation before it puts every quantity back, but a card forgets
   * which movement it came by: each card that went there and back is left with the customer.
   */
  lemma TwoUndosStrandTheCards(s: Stock, customer: CustomerId, line: LineId, quantity: int, serials: seq<string>, s1: Stock, s2: Stock)
    requires Sound(s) && Allocate(s, customer, line, quantity, serials) == Success(s1)
    requires Return(s1, customer, line, quantity, serials) == Success(s2)
    ensures UndoNewest(s2, 2).Success?
    ensures SameQuantities(s.rows, UndoNewest(s2, 2).value.rows)
    ensures forall i :: 0 <= i < |serials| ==>
              && At(s.cards, serials[i], StockLine(s.lines, line), InMain)
              && At(UndoNewest(s2, 2).value.cards, serials[i], StockLine(s.lines, line), WithCustomer)
  {
    TwoUndosRestoreQuantities(s, OpAllocate(customer, line, quantity, serials), s1, OpReturn(customer, line, quantity, serials), s2);
    TwoUndosOfCards(s1, s2);
    CardsThereAndBack(s, customer, line, quantity, serials, s1, s2);
  }

  lemma CardsThereAndBack(s: Stock, customer: CustomerId, line: LineId, quantity: int, serials: seq<string>, s1: Stock, s2: Stock)
    requires Allocate(s, customer, line, quantity, serials) == Success(s1)
    requires Return(s1, customer, line, quantity, serials) == Success(s2)
    ensures |s.log| < |s1.log| < |s2.log|
    ensures var undone := UndoCards(UndoCards(s2.cards, s2.log[|s1.log|]), s1.log[|s.log|]);
            forall i :: 0 <= i < |serials| ==>
              At(s.cards, serials[i], StockLine(s.lines, line), InMain) && At(undone, serials[i], StockLine(s.lines, line), WithCustomer)
  {
    TransferIsLast(s, OpAllocate(customer, line, quantity, serials));
    TransferIsLast(s1, OpReturn(customer, line, quantity, serials));
    ThereAndBack(s.cards, serials, StockLine(s.lines, line), customer, s1.log[|s.log|], s2.log[|s1.log|]);
  }

  lemma TransferRecorded(base: seq<Movement>, s: Stock, op: Op, s': Stock)
    requires StockSound(s) && RecordedSince(base, s.log) && (op.OpAllocate? || op.OpReturn?) && Outcome(s, op) == Success(s')
    ensures StockSound(s') && RecordedSince(base, s'.log) && |s'.log| == |s.log| + 1 && s'.log == s.log + [s'.log[|s.log|]]
  {
    OpKeepsStock(s, op);
    RecordingFillsTarget(base, s, op);
    TransferIsLast(s, op);
  }

  lemma TwoUndosRestoreQuantities(s: Stock, away: Op, s1: Stock, home: Op, s2: Stock)
    requires StockSound(s) && away.OpAllocate? && home.OpReturn?
    requires Outcome(s, away) == Success(s1) && Outcome(s1, home) == Success(s2)
    ensures InOrder(s2.log, s2.last) && |s1.log| == |s.log| + 1 && |s2.log| == |s1.log| + 1 && s2.log == s1.log + [s2.log[|s1.log|]]
    ensures UndoNewest(s2, 2).Success? && SameQuantities(s.rows, UndoNewest(s2, 2).value.rows)
  {
    assert s.log[..|s.log|] == s.log;
    TransferRecorded(s.log, s, away, s1);
    TransferRecorded(s.log, s1, home, s2);
    LogIsUndone(s, s2);
  }

  lemma TwoUndosOfCards(s1: Stock, s2: Stock)
    requires InOrder(s2.log, s2.last) && 0 < |s1.log| < |s2.log| && s2.log == s1.log + [s2.log[|s1.log|]] && UndoNewest(s2, 2).Success?
    ensures UndoNewest(s2, 2).value.cards == UndoCards(UndoCards(s2.cards, s2.log[|s1.log|]), s1.log[|s1.log| - 1])
  {
    UndoNewestUnfolds(s2, 2);
    var u := DeleteMovement(s2, Newest(s2.log)).value;
    NewestIsDropped(s2, u);
    assert u.log == s1.log;
    UndoNewestUnfolds(u, 1);
    NewestIsDropped(u, UndoNewest(s2, 2).value);
  }

  lemma TransferIsLast(s: Stock, op: Op)
    requires (op.OpAllocate? || op.OpReturn?) && Outcome(s, op).Success?
    ensures var s1 := Apply(s, op);
            && |s1.log| == |s.log| + 1 && s1.log[..|s.log|] == s.log && s1.lines == s.lines
            && var m := s1.log[|s.log|];
            && m.id == s.last + 1 == s1.last && m.customer == Some(op.customer)
            && m.kind == (if op.OpAllocate? then AllocateToCustomer else ReturnFromCustomer)
  {
  }
}
