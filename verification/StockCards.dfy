/** Undoing a whole run of movements: when every card is back where it was. */
module StockCards {
  import opened Wrappers
  import opened ProductLines
  import opened SimStock
  import opened StockRuns
  import opened StockSales
  import opened StockUndo

  // ---- what undoing a list of movements does to the cards -------------------------------

  /** The cards after undoing the newest `k` movements of the log, newest first. */
  function UndoAll(cards: Cards, log: seq<Movement>, k: nat): Cards
    requires k <= |log|
    decreases k
  {
    if k == 0 then cards else UndoAll(UndoCards(cards, log[|log| - 1]), log[..|log| - 1], k - 1)
  }

  lemma {:induction false} UndoNewestIsUndoAll(s: Stock, k: nat, t: Stock)
    requires InOrder(s.log, s.last) && k <= |s.log| && UndoNewest(s, k) == Success(t)
    ensures t.cards == UndoAll(s.cards, s.log, k)
    decreases k
  {
    if k > 0 {
      UndoNewestUnfolds(s, k);
      var next := DeleteMovement(s, Newest(s.log)).value;
      NewestIsDropped(s, next);
      UndoNewestIsUndoAll(next, k - 1, t);
    }
  }

  ghost predicate DistinctIds(log: seq<Movement>) {
    forall i, j :: 0 <= i < j < |log| ==> log[i].id != log[j].id
  }

  /** The card was last moved by movement `i`. */
  predicate MovedBy(card: Card, log: seq<Movement>, i: nat)
    requires i < |log|
  {
    card.movement == Some(log[i].id)
  }

  /** The card was last moved by none of the movements from `from` on. */
  ghost predicate MovedByNone(card: Card, log: seq<Movement>, from: nat) {
    forall i :: from <= i < |log| ==> !MovedBy(card, log, i)
  }

  lemma MovedByNoneShorter(card: Card, log: seq<Movement>, from: nat)
    requires from < |log|
    ensures MovedByNone(card, log, from) <==> !MovedBy(card, log, |log| - 1) && MovedByNone(card, log[..|log| - 1], from)
  {
    var shorter := log[..|log| - 1];
    assert forall i :: from <= i < |shorter| ==> shorter[i] == log[i];
    if MovedByNone(card, shorter, from) && !MovedBy(card, log, |log| - 1) {
      forall i | from <= i < |log| ensures !MovedBy(card, log, i) {
        assert i < |shorter| ==> !MovedBy(card, shorter, i);
      }
    }
    if MovedByNone(card, log, from) {
      forall i | from <= i < |shorter| ensures !MovedBy(card, shorter, i) {
        assert !MovedBy(card, log, i);
      }
    }
  }

  lemma {:induction false} UntouchedStays(cards: Cards, log: seq<Movement>, k: nat, key: string)
    requires k <= |log| && key in cards && MovedByNone(cards[key], log, |log| - k)
    ensures key in UndoAll(cards, log, k) && UndoAll(cards, log, k)[key] == cards[key]
    decreases k
  {
    if k > 0 {
      MovedByNoneShorter(cards[key], log, |log| - k);
      UntouchedStays(UndoCards(cards, log[|log| - 1]), log[..|log| - 1], k - 1, key);
    }
  }

  lemma {:induction false} UndoAllKeys(cards: Cards, log: seq<Movement>, k: nat, key: string)
    requires k <= |log| && key !in cards
    ensures key !in UndoAll(cards, log, k)
    decreases k
  {
    if k > 0 {
      UndoAllKeys(UndoCards(cards, log[|log| - 1]), log[..|log| - 1], k - 1, key);
    }
  }

  /** Only the movement that moved a card last undoes anything about it, and then nothing else does. */
  lemma {:induction false} LastMoveIsUndone(cards: Cards, log: seq<Movement>, k: nat, key: string, i: nat)
    requires k <= |log| && |log| - k <= i < |log| && DistinctIds(log)
    requires key in cards && MovedBy(cards[key], log, i)
    ensures var back := UndoAll(cards, log, k);
            if log[i].kind.MainReceive? then key !in back else key in back && back[key] == UndoCard(cards[key], log[i])
    decreases k
  {
    var last, shorter := log[|log| - 1], log[..|log| - 1];
    var next := UndoCards(cards, last);
    if i < |log| - 1 {
      assert shorter[i] == log[i] && last.id != log[i].id;
      assert DistinctIds(shorter);
      LastMoveIsUndone(next, shorter, k - 1, key, i);
    } else if last.kind.MainReceive? {
      UndoAllKeys(next, shorter, k - 1, key);
    } else {
      assert next[key].movement == None;
      UntouchedStays(next, shorter, k - 1, key);
    }
  }

  // ---- what a run of recordings does to the cards ----------------------------------------

  /** The card is as it was in `base`, or was last moved by a movement logged since. */
  ghost predicate Traced(base: Stock, log: seq<Movement>, card: Card, key: string) {
    || (key in base.cards && base.cards[key] == card)
    || (exists i :: |base.log| <= i < |log| && MovedBy(card, log, i) && (log[i].kind.MainReceive? ==> key !in base.cards))
  }

  ghost predicate AllTraced(base: Stock, s: Stock) {
    && |base.log| <= |s.log| && base.last <= s.last
    && (forall key: string :: key in base.cards ==> key in s.cards)
    && (forall key: string :: key in s.cards ==> Traced(base, s.log, s.cards[key], key))
    && (forall i :: |base.log| <= i < |s.log| ==> s.log[i].id > base.last)
  }

  /** One recording leaves a card alone, or stamps it with the movement it logs. */
  ghost predicate OneStamp(s: Stock, s': Stock) {
    && Extends(s, s') && (|s'.log| > |s.log| ==> s'.log[|s.log|].id == s.last + 1)
    && (forall key: string :: key in s.cards ==> key in s'.cards)
    && (forall key: string :: key in s'.cards ==>
          || (key in s.cards && s'.cards[key] == s.cards[key])
          || (|s'.log| > |s.log| && MovedBy(s'.cards[key], s'.log, |s.log|) && (s'.log[|s.log|].kind.MainReceive? ==> key !in s.cards)))
  }

  lemma ReceiveStamps(s: Stock, line: LineId, quantity: int, serials: seq<string>)
    ensures OneStamp(s, Apply(s, OpReceive(line, quantity, serials)))
  {
    OpExtendsLog(s, OpReceive(line, quantity, serials));
    if Receive(s, line, quantity, serials).Success? {
      RegisterEffect(s.cards, serials, Card(StockLine(s.lines, line), InMain, None, None, Some(s.last + 1)));
    }
  }

  lemma AllocateStamps(s: Stock, customer: CustomerId, line: LineId, quantity: int, serials: seq<string>)
    ensures OneStamp(s, Apply(s, OpAllocate(customer, line, quantity, serials)))
  {
    OpExtendsLog(s, OpAllocate(customer, line, quantity, serials));
    if Allocate(s, customer, line, quantity, serials).Success? {
      MoveCardsEffect(s.cards, serials, StockLine(s.lines, line), InMain, WithCustomer, Some(customer), s.last + 1);
    }
  }

  lemma ReturnStamps(s: Stock, customer: CustomerId, line: LineId, quantity: int, serials: seq<string>)
    ensures OneStamp(s, Apply(s, OpReturn(customer, line, quantity, serials)))
  {
    OpExtendsLog(s, OpReturn(customer, line, quantity, serials));
    if Return(s, customer, line, quantity, serials).Success? {
      MoveCardsEffect(s.cards, serials, StockLine(s.lines, line), WithCustomer, InMain, None, s.last + 1);
    }
  }

  lemma OtherStamps(s: Stock, op: Op)
    requires RecordsOnly(op) && !MovesStock(op)
    ensures OneStamp(s, Apply(s, op))
  {
    OpExtendsLog(s, op);
  }

  lemma RecordingStamps(s: Stock, op: Op)
    requires RecordsOnly(op)
    ensures OneStamp(s, Apply(s, op))
  {
    match op {
      case OpReceive(line, quantity, serials) => ReceiveStamps(s, line, quantity, serials);
      case OpAllocate(customer, line, quantity, serials) => AllocateStamps(s, customer, line, quantity, serials);
      case OpReturn(customer, line, quantity, serials) => ReturnStamps(s, customer, line, quantity, serials);
      case _ => OtherStamps(s, op);
    }
  }

  lemma StampKeepsTrace(base: Stock, s: Stock, s': Stock, key: string)
    requires AllTraced(base, s) && OneStamp(s, s') && key in s'.cards
    ensures Traced(base, s'.log, s'.cards[key], key)
  {
    var card := s'.cards[key];
    if key in s.cards && card == s.cards[key] {
      assert Traced(base, s.log, card, key);
      if !(key in base.cards && base.cards[key] == card) {
        var i :| |base.log| <= i < |s.log| && MovedBy(card, s.log, i) && (s.log[i].kind.MainReceive? ==> key !in base.cards);
        assert s'.log[..|s.log|][i] == s'.log[i];
        assert MovedBy(card, s'.log, i);
      }
    } else {
      assert MovedBy(card, s'.log, |s.log|);
    }
  }

  lemma StampKeepsAllTraced(base: Stock, s: Stock, s': Stock)
    requires AllTraced(base, s) && OneStamp(s, s')
    ensures AllTraced(base, s')
  {
    forall key: string | key in s'.cards ensures Traced(base, s'.log, s'.cards[key], key) {
      StampKeepsTrace(base, s, s', key);
    }
    forall i | |base.log| <= i < |s'.log| ensures s'.log[i].id > base.last {
      assert i < |s.log| ==> s'.log[..|s.log|][i] == s'.log[i];
    }
  }

  lemma {:induction false} RunTracesCards(s: Stock, ops: seq<Op>)
    requires Recordings(ops)
    ensures AllTraced(s, Run(s, ops))
  {
    if |ops| > 0 {
      var before := Run(s, ops[..|ops| - 1]);
      RunTracesCards(s, ops[..|ops| - 1]);
      RecordingStamps(before, ops[|ops| - 1]);
      StampKeepsAllTraced(s, before, Run(s, ops));
    }
  }

  // ---- when the cards come back ------------------------------------------------------------

  /**
   * Every card that a movement since position `from` moved last, other than a receipt, was there
   * before, and where that one movement's undoing puts it.
   */
  ghost predicate LastMovesLeadBack(before: Cards, now: Cards, log: seq<Movement>, from: nat) {
    forall key: string, i: nat :: key in now && from <= i < |log| ==> LeadsBack(before, now, log, key, i)
  }

  predicate LeadsBack(before: Cards, now: Cards, log: seq<Movement>, key: string, i: nat)
    requires key in now && i < |log|
  {
    MovedBy(now[key], log, i) && !log[i].kind.MainReceive? ==>
      key in before && Whereabouts(UndoCard(now[key], log[i])) == Whereabouts(before[key])
  }

  ghost predicate StampsUpTo(cards: Cards, last: MovementId) {
    forall key: string :: key in cards && cards[key].movement.Some? ==> cards[key].movement.value <= last
  }

  lemma LeadingBackRestores(base: Stock, s: Stock, k: nat)
    requires AllTraced(base, s) && DistinctIds(s.log) && k == |s.log| - |base.log| && StampsUpTo(base.cards, base.last)
    requires LastMovesLeadBack(base.cards, s.cards, s.log, |base.log|)
    ensures SameWhereabouts(base.cards, UndoAll(s.cards, s.log, k))
  {
    var back := UndoAll(s.cards, s.log, k);
    forall key: string ensures SameCard(base.cards, back, key) {
      if key in s.cards {
        CardComesBack(base, s, key, k);
      } else {
        UndoAllKeys(s.cards, s.log, k, key);
      }
    }
    AllSameCards(base.cards, back);
  }

  lemma AllSameCards(cards: Cards, cards': Cards)
    requires forall key: string :: SameCard(cards, cards', key)
    ensures SameWhereabouts(cards, cards')
  {
    forall key: string ensures key in cards <==> key in cards' {
      assert SameCard(cards, cards', key);
    }
    forall key: string | key in cards ensures Whereabouts(cards'[key]) == Whereabouts(cards[key]) {
      assert SameCard(cards, cards', key);
    }
  }

  predicate SameCard(cards: Cards, cards': Cards, key: string) {
    (key in cards <==> key in cards') && (key in cards && key in cards' ==> Whereabouts(cards'[key]) == Whereabouts(cards[key]))
  }

  lemma CardComesBack(base: Stock, s: Stock, key: string, k: nat)
    requires AllTraced(base, s) && DistinctIds(s.log) && k == |s.log| - |base.log| && StampsUpTo(base.cards, base.last)
    requires LastMovesLeadBack(base.cards, s.cards, s.log, |base.log|) && key in s.cards
    ensures SameCard(base.cards, UndoAll(s.cards, s.log, k), key)
  {
    assert Traced(base, s.log, s.cards[key], key);
    if key in base.cards && base.cards[key] == s.cards[key] {
      UnstampedStays(base, s, key, k);
    } else {
      var i: nat :| |base.log| <= i < |s.log| && MovedBy(s.cards[key], s.log, i) && (s.log[i].kind.MainReceive? ==> key !in base.cards);
      assert LeadsBack(base.cards, s.cards, s.log, key, i);
      LastMoveIsUndone(s.cards, s.log, k, key, i);
    }
  }

  lemma UnstampedStays(base: Stock, s: Stock, key: string, k: nat)
    requires AllTraced(base, s) && k == |s.log| - |base.log| && StampsUpTo(base.cards, base.last)
    requires key in base.cards && key in s.cards && base.cards[key] == s.cards[key]
    ensures key in UndoAll(s.cards, s.log, k) && UndoAll(s.cards, s.log, k)[key] == base.cards[key]
  {
    UntouchedStays(s.cards, s.log, k, key);
  }

  lemma RestoredLeadsBack(base: Stock, s: Stock, k: nat)
    requires |base.log| <= |s.log| && DistinctIds(s.log) && k == |s.log| - |base.log|
    requires SameWhereabouts(base.cards, UndoAll(s.cards, s.log, k))
    ensures LastMovesLeadBack(base.cards, s.cards, s.log, |base.log|)
  {
    forall key: string, i: nat | key in s.cards && |base.log| <= i < |s.log|
      ensures LeadsBack(base.cards, s.cards, s.log, key, i)
    {
      if MovedBy(s.cards[key], s.log, i) {
        LastMoveIsUndone(s.cards, s.log, k, key, i);
      }
    }
  }

  lemma UndoAllRestoresIff(base: Stock, s: Stock, k: nat)
    requires AllTraced(base, s) && DistinctIds(s.log) && k == |s.log| - |base.log| && StampsUpTo(base.cards, base.last)
    ensures SameWhereabouts(base.cards, UndoAll(s.cards, s.log, k)) <==> LastMovesLeadBack(base.cards, s.cards, s.log, |base.log|)
  {
    if LastMovesLeadBack(base.cards, s.cards, s.log, |base.log|) {
      LeadingBackRestores(base, s, k);
    } else if SameWhereabouts(base.cards, UndoAll(s.cards, s.log, k)) {
      RestoredLeadsBack(base, s, k);
    }
  }

  lemma SoundCardsAreStamped(s: Stock)
    requires CardsSound(s.cards, s.sales, s.last)
    ensures StampsUpTo(s.cards, s.last)
  {
    forall key: string | key in s.cards && s.cards[key].movement.Some? ensures s.cards[key].movement.value <= s.last {
      assert CardSound(s.cards[key], s.sales, s.last);
    }
  }

  /** What a run of recordings leaves behind. */
  ghost predicate Trail(s: Stock, s': Stock) {
    && StockSound(s) && StockSound(s') && RecordedSince(s.log, s'.log)
    && AllTraced(s, s') && StampsUpTo(s.cards, s.last)
  }

  lemma RunLeavesATrail(s: Stock, ops: seq<Op>)
    requires Sound(s) && Recordings(ops)
    ensures Trail(s, Run(s, ops))
  {
    RunKeepsStock(s, ops);
    RunFillsTargets(s, ops);
    RunTracesCards(s, ops);
    SoundCardsAreStamped(s);
  }

  /**
   * From any sound tables, after undoing everything a run of recordings logged, every card is where
   * it was, and no other card is left, exactly when the last movement of each card leads back:
   * receipts always do, an allocation or a return does if the card was there before the run, in the
   * place that undoing this one movement gives it.
   */
  lemma UndoneRunRestoresCardsIff(s: Stock, ops: seq<Op>, s': Stock)
    requires Sound(s) && Recordings(ops) && s' == Run(s, ops)
    ensures |s.log| <= |s'.log|
    ensures var undone := UndoNewest(s', |s'.log| - |s.log|);
            undone.Success? &&
            (SameWhereabouts(s.cards, undone.value.cards) <==> LastMovesLeadBack(s.cards, s'.cards, s'.log, |s.log|))
  {
    RunLeavesATrail(s, ops);
    TrailIsUndone(s, s');
  }

  lemma TrailIsUndone(s: Stock, s': Stock)
    requires Trail(s, s')
    ensures var undone := UndoNewest(s', |s'.log| - |s.log|);
            undone.Success? &&
            (SameWhereabouts(s.cards, undone.value.cards) <==> LastMovesLeadBack(s.cards, s'.cards, s'.log, |s.log|))
  {
    UndoNewestIff(s', |s'.log| - |s.log|);
    UndoNewestIsUndoAll(s', |s'.log| - |s.log|, UndoNewest(s', |s'.log| - |s.log|).value);
    TracedCardsRestoredIff(s, s');
  }

  lemma TracedCardsRestoredIff(s: Stock, s': Stock)
    requires AllTraced(s, s') && StampsUpTo(s.cards, s.last) && InOrder(s'.log, s'.last)
    ensures SameWhereabouts(s.cards, UndoAll(s'.cards, s'.log, |s'.log| - |s.log|))
            <==> LastMovesLeadBack(s.cards, s'.cards, s'.log, |s.log|)
  {
    IdsAreDistinct(s');
    UndoAllRestoresIff(s, s', |s'.log| - |s.log|);
  }

  lemma IdsAreDistinct(s: Stock)
    requires InOrder(s.log, s.last)
    ensures DistinctIds(s.log)
  {
  }
}
