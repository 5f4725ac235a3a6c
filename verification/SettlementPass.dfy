/** What one run of the settlement pass does, from any state. */
module SettlementPass {
  import opened Wrappers
  import opened Sums
  import opened Receivables

  /** What is pending in the queue up to and including sale `i`. */
  function QueueUpTo(sales: seq<Sale>, i: nat): Cents
    requires i < |sales|
  {
    Sum(sales[..i + 1], PendingPrice())
  }

  /** Every pending sale up to and including `i` is covered, taken oldest first. */
  ghost predicate Fits(sales: seq<Sale>, available: Cents, i: nat)
    requires i < |sales|
  {
    forall j :: 0 <= j <= i && sales[j].status.Pending? ==> QueueUpTo(sales, j) <= available
  }

  lemma QueueHead(sales: seq<Sale>)
    requires |sales| > 0
    ensures QueueUpTo(sales, 0) == PendingPrice()(sales[0])
  {
    assert sales[..1] == [sales[0]] + [];
    SumCons(sales[0], [], PendingPrice());
  }

  lemma QueueTail(sales: seq<Sale>, j: nat)
    requires j + 1 < |sales|
    ensures QueueUpTo(sales, j + 1) == PendingPrice()(sales[0]) + QueueUpTo(sales[1..], j)
  {
    assert sales[..j + 2] == [sales[0]] + sales[1..][..j + 1];
    SumCons(sales[0], sales[1..][..j + 1], PendingPrice());
  }

  lemma FitsTail(sales: seq<Sale>, available: Cents, i: nat)
    requires 0 < i < |sales|
    ensures Fits(sales, available, i)
       <==> (sales[0].status.Pending? ==> sales[0].price <= available)
            && Fits(sales[1..], available - PendingPrice()(sales[0]), i - 1)
  {
    var rest := sales[1..];
    var left := available - PendingPrice()(sales[0]);
    QueueHead(sales);
    if Fits(sales, available, i) {
      forall j | 0 <= j <= i - 1 && rest[j].status.Pending?
        ensures QueueUpTo(rest, j) <= left
      {
        QueueTail(sales, j);
        assert sales[j + 1].status.Pending?;
      }
    }
    if (sales[0].status.Pending? ==> sales[0].price <= available) && Fits(rest, left, i - 1) {
      forall j | 0 <= j <= i && sales[j].status.Pending?
        ensures QueueUpTo(sales, j) <= available
      {
        if j > 0 {
          QueueTail(sales, j - 1);
          assert rest[j - 1].status.Pending?;
        }
      }
    }
  }

  lemma {:induction false} SettleLength(sales: seq<Sale>, available: Cents, payer: Payment)
    ensures |Settle(sales, available, payer)| == |sales|
  {
    if |sales| != 0 {
      SettleLength(sales[1..], available - PendingPrice()(sales[0]), payer);
    }
  }

  lemma {:induction false} SettlesWhatFits(sales: seq<Sale>, available: Cents, payer: Payment, i: nat)
    requires i < |sales|
    ensures |Settle(sales, available, payer)| == |sales|
    ensures Settle(sales, available, payer)[i]
         == if sales[i].status.Pending? && Fits(sales, available, i) then Stamped(sales[i], payer) else sales[i]
  {
    var left := available - PendingPrice()(sales[0]);
    SettleLength(sales, available, payer);
    QueueHead(sales);
    if i > 0 {
      SettleLength(sales[1..], left, payer);
      SettlesWhatFits(sales[1..], left, payer, i - 1);
      FitsTail(sales, available, i);
      assert sales[1..][i - 1] == sales[i];
    }
  }

  /** The pass marks paid exactly the pending sales whose whole queue up to them fits. */
  lemma SettlesTheFittingPrefix(sales: seq<Sale>, available: Cents, payer: Payment)
    ensures |Settle(sales, available, payer)| == |sales|
    ensures forall i :: 0 <= i < |sales| ==>
      Settle(sales, available, payer)[i]
        == if sales[i].status.Pending? && Fits(sales, available, i) then Stamped(sales[i], payer) else sales[i]
  {
    SettleLength(sales, available, payer);
    forall i | 0 <= i < |sales| {
      SettlesWhatFits(sales, available, payer, i);
    }
  }

  /**
   * One run of the pass, sale by sale: a sale is settled exactly when it is pending, there is
   * headroom and a payment to stamp, and the whole queue up to it fits. Free sales are no exception.
   */
  lemma PassSettlesIff(b: Book, trigger: Option<Payment>, i: nat)
    requires i < |b.sales|
    ensures |Reapply(b, trigger).sales| == |b.sales|
    ensures var payer := SettlingPayment(b, trigger);
            Reapply(b, trigger).sales[i]
              == if b.sales[i].status.Pending? && Headroom(b) > 0 && payer.Some? && Fits(b.sales, Headroom(b), i)
                 then Stamped(b.sales[i], payer.value) else b.sales[i]
  {
    var payer := SettlingPayment(b, trigger);
    if payer.Some? {
      SettlesTheFittingPrefix(b.sales, Headroom(b), payer.value);
    }
  }

  // ---- how the totals move -----------------------------------------------------

  /** What the pass spends. */
  function Taken(sales: seq<Sale>, available: Cents): Cents {
    if |sales| == 0 then 0
    else if !sales[0].status.Pending? then Taken(sales[1..], available)
    else if sales[0].price > available then 0
    else sales[0].price + Taken(sales[1..], available - sales[0].price)
  }

  lemma {:induction false} SettlePaid(sales: seq<Sale>, available: Cents, payer: Payment)
    ensures Sum(Settle(sales, available, payer), PaidPrice()) == Sum(sales, PaidPrice()) + Taken(sales, available)
  {
    if |sales| != 0 {
      var s, left := sales[0], available - PendingPrice()(sales[0]);
      SettlePaid(sales[1..], left, payer);
      SumCons(s, Settle(sales[1..], left, payer), PaidPrice());
      SumCons(Stamped(s, payer), Settle(sales[1..], left, payer), PaidPrice());
    }
  }

  lemma {:induction false} SettlePending(sales: seq<Sale>, available: Cents, payer: Payment)
    ensures Sum(Settle(sales, available, payer), PendingPrice()) == Sum(sales, PendingPrice()) - Taken(sales, available)
  {
    if |sales| != 0 {
      var s, left := sales[0], available - PendingPrice()(sales[0]);
      SettlePending(sales[1..], left, payer);
      SumCons(s, Settle(sales[1..], left, payer), PendingPrice());
      SumCons(Stamped(s, payer), Settle(sales[1..], left, payer), PendingPrice());
    }
  }

  lemma {:induction false} TakenAtMost(sales: seq<Sale>, available: Cents)
    ensures available >= 0 ==> Taken(sales, available) <= available
  {
    if |sales| != 0 {
      TakenAtMost(sales[1..], available - PendingPrice()(sales[0]));
    }
  }

  lemma SettleTotals(sales: seq<Sale>, available: Cents, payer: Payment)
    ensures Sum(Settle(sales, available, payer), PaidPrice()) == Sum(sales, PaidPrice()) + Taken(sales, available)
    ensures Sum(Settle(sales, available, payer), PendingPrice()) == Sum(sales, PendingPrice()) - Taken(sales, available)
    ensures available >= 0 ==> Taken(sales, available) <= available
    ensures Settle(sales, available, payer) == sales ==> Taken(sales, available) == 0
  {
    SettlePaid(sales, available, payer);
    SettlePending(sales, available, payer);
    TakenAtMost(sales, available);
  }

  lemma TakenNonNegative(sales: seq<Sale>, available: Cents)
    requires forall s :: s in sales && s.status.Pending? ==> s.price >= 0
    ensures Taken(sales, available) >= 0
  {
  }

  /** The totals after the pass, in terms of what it spent. */
  lemma PassTotals(b: Book, trigger: Option<Payment>) returns (spent: Cents)
    ensures PaidTotal(Reapply(b, trigger)) == PaidTotal(b) + spent
    ensures PendingTotal(Reapply(b, trigger)) == PendingTotal(b) - spent
    ensures spent <= Max(0, Headroom(b))
    ensures Reapply(b, trigger) == b ==> spent == 0
    ensures (forall s :: s in b.sales && s.status.Pending? ==> s.price >= 0) ==> spent >= 0
  {
    var payer := SettlingPayment(b, trigger);
    if Headroom(b) <= 0 || payer.None? {
      spent := 0;
    } else {
      SettleTotals(b.sales, Headroom(b), payer.value);
      spent := Taken(b.sales, Headroom(b));
      if forall s :: s in b.sales && s.status.Pending? ==> s.price >= 0 {
        TakenNonNegative(b.sales, Headroom(b));
      }
    }
  }

  /** From every state: a pass that settles anything keeps net adjustments covered by the payments. */
  lemma SettlingRespectsTheAdjustmentReserve(b: Book, trigger: Option<Payment>)
    requires Reapply(b, trigger) != b
    ensures PaidTotal(Reapply(b, trigger)) + Max(0, Adjustments(b)) <= PaymentsTotal(b)
  {
    var spent := PassTotals(b, trigger);
  }

  // ---- the pass is a fixpoint ----------------------------------------------------

  /** Once the pass has stopped, no smaller amount settles anything more. */
  lemma {:induction false} SettleStops(sales: seq<Sale>, available: Cents, left: Cents, payer: Payment, next: Payment)
    requires left <= available - Taken(sales, available)
    ensures Settle(Settle(sales, available, payer), left, next) == Settle(sales, available, payer)
  {
    if |sales| != 0 {
      var s := sales[0];
      var rest := Settle(sales[1..], available - PendingPrice()(s), payer);
      if !s.status.Pending? {
        SettleStops(sales[1..], available, left, payer, next);
        assert ([s] + rest)[1..] == rest;
      } else if s.price <= available {
        SettleStops(sales[1..], available - s.price, left, payer, next);
        assert ([Stamped(s, payer)] + rest)[1..] == rest;
      }
    }
  }

  /**
   * The pass run twice with nothing in between settles nothing the second time, from every
   * state whose pending prices are not negative.
   */
  lemma PassIsAFixpoint(b: Book, trigger: Option<Payment>)
    requires forall s :: s in b.sales && s.status.Pending? ==> s.price >= 0
    ensures Reapply(Reapply(b, trigger), None) == Reapply(b, trigger)
  {
    var once := Reapply(b, trigger);
    var payer := SettlingPayment(b, trigger);
    var next := SettlingPayment(once, None);
    if Headroom(b) > 0 && payer.Some? && Headroom(once) > 0 && next.Some? {
      SettleTotals(b.sales, Headroom(b), payer.value);
      TakenNonNegative(b.sales, Headroom(b));
      SettleStops(b.sales, Headroom(b), Headroom(once), payer.value, next.value);
    }
  }

  // ---- exactly when a second run settles more --------------------------------------------

  /** The first pending sale the loop does not settle, or the number of sales. */
  function FirstLeft(sales: seq<Sale>, available: Cents): nat {
    if |sales| == 0 then 0
    else if !sales[0].status.Pending? then 1 + FirstLeft(sales[1..], available)
    else if sales[0].price > available then 0
    else 1 + FirstLeft(sales[1..], available - sales[0].price)
  }

  lemma {:induction false} FirstLeftMeaning(sales: seq<Sale>, available: Cents)
    ensures FirstLeft(sales, available) <= |sales|
    ensures FirstLeft(sales, available) < |sales| ==>
              var s := sales[FirstLeft(sales, available)];
              s.status.Pending? && s.price > available - Taken(sales, available)
  {
    if |sales| > 0 {
      FirstLeftMeaning(sales[1..], available - PendingPrice()(sales[0]));
    }
  }

  lemma {:induction false} SettlesOnIff(sales: seq<Sale>, available: Cents, more: Cents, p: Payment, q: Payment)
    ensures FirstLeft(sales, available) <= |sales|
    ensures Settle(Settle(sales, available, p), more, q) != Settle(sales, available, p)
            <==> (FirstLeft(sales, available) < |sales| && sales[FirstLeft(sales, available)].price <= more)
  {
    if |sales| > 0 {
      var s := sales[0];
      var left := available - PendingPrice()(s);
      var rest := Settle(sales[1..], left, p);
      if s.status.Pending? && s.price > available {
        assert Settle(sales, more, q) != sales <==> s.price <= more by {
          SettleLength(sales, more, q);
          assert s.price <= more ==> Settle(sales, more, q)[0].status.Paid?;
        }
      } else {
        var head := if s.status.Pending? then Stamped(s, p) else s;
        SettlesOnIff(sales[1..], left, more, p, q);
        HeadStays(head, rest, more, q);
      }
    }
  }

  lemma HeadStays(head: Sale, rest: seq<Sale>, more: Cents, q: Payment)
    requires !head.status.Pending?
    ensures Settle([head] + rest, more, q) != [head] + rest <==> Settle(rest, more, q) != rest
  {
    assert ([head] + rest)[1..] == rest;
    if Settle([head] + rest, more, q) == [head] + rest {
      assert Settle(rest, more, q) == ([head] + Settle(rest, more, q))[1..];
    }
  }

  /** The reserve as it is recomputed once `spent` has moved from pending to paid. */
  function ReserveAfter(b: Book, spent: Cents): Cents {
    Max(Max(0, Adjustments(b)), Max(0, b.balance - PendingTotal(b) + spent))
  }

  /**
   * From every state, whatever the prices: a second run settles more exactly when what the first
   * one left, with the reserve it set free, covers the first sale it had left pending.
   */
  lemma SecondRunSettlesMoreIff(b: Book, trigger: Option<Payment>)
    requires Headroom(b) > 0 && |b.payments| > 0
    ensures FirstLeft(b.sales, Headroom(b)) <= |b.sales|
    ensures var once, spent, n := Reapply(b, trigger), Taken(b.sales, Headroom(b)), FirstLeft(b.sales, Headroom(b));
            var left := Headroom(b) - spent + (Reserve(b) - ReserveAfter(b, spent));
            Reapply(once, None) != once <==> (left > 0 && n < |b.sales| && b.sales[n].price <= left)
  {
    var payer := SettlingPayment(b, trigger).value;
    var once := Reapply(b, trigger);
    SettleTotals(b.sales, Headroom(b), payer);
    SettlesOnIff(b.sales, Headroom(b), Headroom(once), payer, SettlingPayment(once, None).value);
  }

  /** That takes a run that spent less than nothing: sales of negative price, on debt that no sale accounts for. */
  lemma SecondRunNeedsNegativeSpending(b: Book, trigger: Option<Payment>)
    requires Headroom(b) > 0 && |b.payments| > 0 && Reapply(Reapply(b, trigger), None) != Reapply(b, trigger)
    ensures Taken(b.sales, Headroom(b)) < 0 && b.balance - PendingTotal(b) > Max(0, Adjustments(b))
  {
    SecondRunSettlesMoreIff(b, trigger);
    FirstLeftMeaning(b.sales, Headroom(b));
  }

  // ---- more money settles more, in any number of instalments ------------------------

  function Statuses(sales: seq<Sale>): seq<SaleStatus> {
    seq(|sales|, i requires 0 <= i < |sales| => sales[i].status)
  }

  lemma PayerDoesNotMatter(sales: seq<Sale>, available: Cents, p: Payment, q: Payment)
    ensures Statuses(Settle(sales, available, p)) == Statuses(Settle(sales, available, q))
  {
    SettlesTheFittingPrefix(sales, available, p);
    SettlesTheFittingPrefix(sales, available, q);
  }

  lemma StatusesCons(s: Sale, sales: seq<Sale>)
    ensures Statuses([s] + sales) == [s.status] + Statuses(sales)
  {
  }

  /** Spending `a` and then what is left plus `extra` settles the same sales as spending it all at once. */
  lemma {:induction false} SettleInTwoSteps(sales: seq<Sale>, a: Cents, extra: Cents, p: Payment, q: Payment, r: Payment)
    requires extra >= 0
    ensures Statuses(Settle(Settle(sales, a, p), a - Taken(sales, a) + extra, q)) == Statuses(Settle(sales, a + extra, r))
  {
    if |sales| != 0 {
      var s := sales[0];
      var left := a - PendingPrice()(s);
      var rest := Settle(sales[1..], left, p);
      if s.status.Pending? && s.price > a {
        PayerDoesNotMatter(sales, a + extra, q, r);
      } else {
        var head := if s.status.Pending? then Stamped(s, p) else s;
        SettleInTwoSteps(sales[1..], left, extra, p, q, r);
        assert ([head] + rest)[1..] == rest;
        StatusesCons(head, Settle(rest, left - Taken(sales[1..], left) + extra, q));
        StatusesCons(if s.status.Pending? then Stamped(s, r) else s, Settle(sales[1..], left + extra, r));
      }
    }
  }

  /** A larger amount settles every sale the smaller one settles. */
  lemma MoreSettlesMore(sales: seq<Sale>, a: Cents, extra: Cents, p: Payment, q: Payment)
    requires extra >= 0
    ensures |Settle(sales, a, p)| == |Settle(sales, a + extra, q)| == |sales|
    ensures forall i :: 0 <= i < |sales| && Settle(sales, a, p)[i].status.Paid? ==> Settle(sales, a + extra, q)[i].status.Paid?
  {
    SettlesTheFittingPrefix(sales, a, p);
    SettlesTheFittingPrefix(sales, a + extra, q);
  }
}
