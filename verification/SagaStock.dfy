/** Every step of the saga keeps stock and ledger in agreement with the order rows; a cancel or
    an expiry does so exactly when the row it acts on is fresh enough to select the right
    restore. */
module SagaStock {
  import opened OrderState
  import opened Inventory
  import opened Cart
  import opened Saga
  import opened SagaInvariant
  import opened SagaCore
  import opened Sums
  import P = Promotion

  /** `s1` differs from `s` in one order, its counts and the levels, and the other orders keep
      their counts and dispatch history. */
  ghost predicate MovedAlone(s: State, s1: State, o: OrderId) {
    && OneOrderMoved(s, s1, o)
    && (forall k | k != o :: Count(s1.h.releases, k) == Count(s.h.releases, k))
    && (forall k | k != o :: k in s1.h.dispatched <==> k in s.h.dispatched)
  }

  lemma MoveKeepsStock(s: State, s1: State, o: OrderId)
    requires Stock(s) && MovedAlone(s, s1, o)
    requires forall p | p in s1.db.levels :: s1.db.levels[p].available >= 0
    ensures Stock(s1) <==> LevelsFollow(s, s1, o) && MovesOk(s1, o)
  {
    hide LevelsOk, LevelsFollow, QuantitiesOf;
    LevelsCarry(s, s1, o);
    forall k | k in s1.db.orders && k != o ensures MovesOk(s1, k) {
      assert MovesOk(s, k);
    }
  }

  // ---- steps that move no stock ----

  lemma StillStocked(s: State, s1: State)
    requires Stock(s)
    requires s1.db.orders == s.db.orders && s1.db.levels == s.db.levels && s1.h.stocked == s.h.stocked
    requires s1.h.deducts == s.h.deducts && s1.h.releases == s.h.releases && s1.h.restocks == s.h.restocks
    requires s1.h.dispatched == s.h.dispatched
    ensures Stock(s1)
  {
    hide QuantitiesOf, Gone, Held, Sum, Count;
    forall p | p in s1.db.levels ensures LevelOk(s1, p) {
      assert LevelOk(s, p);
      GoneSame(s, s1, p);
    }
    forall o | o in s1.db.orders ensures MovesOk(s1, o) {
      assert MovesOk(s, o);
    }
  }

  lemma GoneSame(s: State, s1: State, p: ProductId)
    requires s1.db.orders == s.db.orders && s1.h.deducts == s.h.deducts && s1.h.restocks == s.h.restocks
    ensures Gone(s1, p) == Gone(s, p)
  {
    hide QuantitiesOf;
  }

  /** A transition without stock effect, whatever else happens to payments and jobs. */
  lemma PlainStock(s: State, o: OrderId, t: Transition)
    requires Core(s) && Stock(s) && !t.DeductsStock() && !t.ReversesStock()
    ensures Stock(Advance(s, o, t))
  {
    hide Core, LevelsOk, LedgerOk, QuantitiesOf;
    var s1 := Advance(s, o, t);
    if Wins(s.db.orders, o, t) {
      OrderAt(s, o);
      LedgerAt(s, o);
      LevelsSane(s);
      assert LevelsFollow(s, s1, o);
      MoveKeepsStock(s, s1, o);
    }
  }

  lemma LedgerAt(s: State, o: OrderId)
    requires Stock(s) && o in s.db.orders
    ensures MovesOk(s, o)
  {
    hide LevelsOk, StockedOk;
  }

  lemma LevelsSane(s: State)
    requires Stock(s)
    ensures forall p | p in s.db.levels :: s.db.levels[p].available >= 0
  {
    hide LedgerOk, StockedOk, Held, Gone, Sum;
    forall p | p in s.db.levels ensures s.db.levels[p].available >= 0 {
      assert LevelOk(s, p);
    }
  }

  // ---- paying ----

  lemma PaidStock(s: State, o: OrderId)
    requires Core(s) && Stock(s) && Wins(s.db.orders, o, ToPaid)
    ensures Holds(s.db.levels, QuantitiesOf(s.db.orders[o].items))
    ensures Stock(FinalizeFree(s, o))
    ensures FinalizeFree(s, o) != s
  {
    hide Core, LevelsOk, LedgerOk, QuantitiesOf;
    OrderAt(s, o);
    LedgerAt(s, o);
    LevelsSane(s);
    OwnHold(s, o);
    var s1 := FinalizeFree(s, o);
    assert s1.db.orders[o].at.deducted;
    forall p | p in s.db.levels ensures LevelFollows(s, s1, o, p) {
    }
    MoveKeepsStock(s, s1, o);
  }

  /** Neither Deduct nor ReleaseBatch ever refuses an order its own hold. */
  lemma OwnHold(s: State, o: OrderId)
    requires Core(s) && Stock(s) && o in s.db.orders
    ensures !s.db.orders[o].at.deducted && !s.db.orders[o].at.reversed ==> Holds(s.db.levels, QuantitiesOf(s.db.orders[o].items))
    ensures CanRestore(s.db.levels, QuantitiesOf(s.db.orders[o].items), RestoreFor(s.db.orders[o].items, s.db.orders[o].at))
  {
    hide OrderCore, PayCore, CouponCore, DispatchOk, CartsOk, LevelsOk, LedgerOk, StockedOk, QuantitiesOf, Holds;
    if !s.db.orders[o].at.deducted && !s.db.orders[o].at.reversed {
      HoldCovered(s, o);
    }
  }

  // ---- reversing ----

  /** The state after an order is reversed with restore `b`, coupons and payments aside. */
  function Reversed(s: State, o: OrderId, t: Transition, b: Restore): State
    requires o in s.db.orders
  {
    State(s.db.(orders := Cas(s.db.orders, o, t), levels := Restored(s.db.levels, QuantitiesOf(s.db.orders[o].items), b)),
          Tally(s.h, o, b))
  }

  /** The right restore of a row about to be reversed: none once dispatched or already
      reversed, a restock after a deduction, a release otherwise. */
  function DueRestore(s: State, o: OrderId): Restore
    requires o in s.db.orders
  {
    if o in s.h.dispatched then Skip else RestoreFor(s.db.orders[o].items, s.db.orders[o].at)
  }

  lemma RestoreMoves(s: State, o: OrderId, t: Transition, b: Restore, p: ProductId)
    requires o in s.db.orders && p in s.db.levels && CanRestore(s.db.levels, QuantitiesOf(s.db.orders[o].items), b)
    ensures var s1, q := Reversed(s, o, t, b), Qty(s.db.orders[o], p);
            && p in s1.db.levels
            && s1.db.levels[p].available == s.db.levels[p].available + (if b.Skip? then 0 else q)
            && s1.db.levels[p].reserved == s.db.levels[p].reserved - (if b.Release? then q else 0)
  {
    hide QuantitiesOf;
  }

  /** Reversing with the due restore keeps stock and ledger right. */
  lemma DueRestoreStock(s: State, o: OrderId, t: Transition)
    requires Core(s) && Stock(s) && t.ReversesStock() && Wins(s.db.orders, o, t)
    ensures Stock(Reversed(s, o, t, DueRestore(s, o)))
  {
    hide Core, LevelsOk, LedgerOk, QuantitiesOf, Holds, Restored;
    var b := DueRestore(s, o);
    var s1 := Reversed(s, o, t, b);
    OrderAt(s, o);
    DispatchAt(s, o);
    LedgerAt(s, o);
    LevelsSane(s);
    OwnHold(s, o);
    RestoreKeepsKeys(s.db.levels, QuantitiesOf(s.db.orders[o].items), b);
    forall p | p in s.db.levels ensures s1.db.levels[p].available >= 0 && LevelFollows(s, s1, o, p) {
      RestoreMoves(s, o, t, b, p);
      RowQty(s, o, p);
    }
    MoveKeepsStock(s, s1, o);
  }

  lemma RowQty(s: State, o: OrderId, p: ProductId)
    requires Core(s) && o in s.db.orders
    ensures Qty(s.db.orders[o], p) >= 0
    ensures p in QuantitiesOf(s.db.orders[o].items) ==> Qty(s.db.orders[o], p) > 0 && p in s.db.levels
  {
    hide PayCore, CouponCore, DispatchOk, CartsOk, KeysUnique, SnapsOk;
    QuantitiesPositive(s.db.orders[o], p);
  }

  lemma DispatchAt(s: State, o: OrderId)
    requires Core(s) && o in s.db.orders
    ensures o in s.h.dispatched ==>
              s.db.orders[o].at.deducted && (Dispatched(s.db.orders[o].at.status) || s.db.orders[o].at.status.Refunded?)
    ensures Dispatched(s.db.orders[o].at.status) ==> o in s.h.dispatched
  {
    hide OrderCore, PayCore, CouponCore, CartsOk;
  }

  /** Some product of an order has a level and a positive quantity. */
  lemma SomeProduct(s: State, o: OrderId) returns (p: ProductId)
    requires Core(s) && o in s.db.orders
    ensures p in s.db.levels && Qty(s.db.orders[o], p) > 0
  {
    hide Core;
    OrderAt(s, o);
    var items := s.db.orders[o].items;
    p := items[|items| - 1].product;
    QuantitiesMember(items, p);
    RowQty(s, o, p);
  }

  /** Reversing with any other restore leaves some level wrong. */
  lemma WrongRestoreBreaks(s: State, o: OrderId, t: Transition, b: Restore)
    requires Core(s) && Stock(s) && t.ReversesStock() && Wins(s.db.orders, o, t) && o !in s.h.dispatched
    requires CanRestore(s.db.levels, QuantitiesOf(s.db.orders[o].items), b)
    requires b != DueRestore(s, o) && !b.Skip?
    ensures !LevelsOk(Reversed(s, o, t, b))
  {
    hide Core, LevelsOk, LedgerOk, QuantitiesOf, Restored;
    var s1 := Reversed(s, o, t, b);
    OrderAt(s, o);
    LedgerAt(s, o);
    LevelsSane(s);
    var p := SomeProduct(s, o);
    RestoreMoves(s, o, t, b, p);
    RestoreKeepsKeys(s.db.levels, QuantitiesOf(s.db.orders[o].items), b);
    forall k | k in s1.db.levels ensures s1.db.levels[k].available >= 0 {
      RestoreMoves(s, o, t, b, k);
      RowQty(s, o, k);
    }
    assert !LevelFollows(s, s1, o, p);
    LevelsCarry(s, s1, o);
  }

  // ---- cancel and expiry act on a row read earlier ----

  /** The reversal commits with the restore its row calls for, or does not commit. */
  predicate Harmless(s: State, o: OrderId, r: Order, t: Transition) {
    Wins(s.db.orders, o, t) ==>
      var row := s.db.orders[o];
      || RestoreFor(row.items, r.at) == RestoreFor(row.items, row.at)
      || !CanRestore(s.db.levels, QuantitiesOf(row.items), RestoreFor(row.items, r.at))
  }

  /** A cancel or an expiry keeps stock and ledger right exactly when it is harmless. */
  lemma ReverseExact(s: State, o: OrderId, r: Order, t: Transition)
    requires Core(s) && Stock(s) && Snap(o, r) in s.h.snaps && (t.ToCancelled? || t.ToExpired?)
    ensures Stock(Reverse(s, o, r, t)) <==> Harmless(s, o, r, t)
  {
    hide Core, Stock, Restored, CanRestore, QuantitiesOf, P.ReleasedPromos, P.ReleasedUsages;
    SnapAt(s, o, r);
    if Wins(s.db.orders, o, t) {
      OrderAt(s, o);
      DispatchAt(s, o);
      OwnHold(s, o);
      var row := s.db.orders[o];
      var b := RestoreFor(row.items, r.at);
      if CanRestore(s.db.levels, QuantitiesOf(row.items), b) {
        SameStock(Reverse(s, o, r, t), Reversed(s, o, t, b));
        if b == RestoreFor(row.items, row.at) {
          DueRestoreStock(s, o, t);
        } else {
          WrongRestoreBreaks(s, o, t, b);
          StockNeedsLevels(Reversed(s, o, t, b));
        }
      }
    }
  }

  lemma SameStock(s: State, s1: State)
    requires s1.db.orders == s.db.orders && s1.db.levels == s.db.levels && s1.h == s.h
    ensures Stock(s) <==> Stock(s1)
  {
    if Stock(s) {
      StillStocked(s, s1);
    }
    if Stock(s1) {
      StillStocked(s1, s);
    }
  }

  lemma StockNeedsLevels(s: State)
    ensures Stock(s) ==> LevelsOk(s)
  {
    hide LevelsOk, LedgerOk, StockedOk;
  }

  /** A stale row is enough while the order is payable: its flags cannot have changed. An
      expiry wins only then, so every expiry is harmless. */
  lemma PayableRowsAreFresh(s: State, o: OrderId, r: Order, t: Transition)
    requires Core(s) && Snap(o, r) in s.h.snaps && Wins(s.db.orders, o, t)
    requires Payable(s.db.orders[o].at.status)
    ensures r.at.deducted == s.db.orders[o].at.deducted && r.at.reversed == s.db.orders[o].at.reversed
    ensures t.ToExpired? || t.ToCancelled? ==> Harmless(s, o, r, t)
  {
    hide Core, QuantitiesOf;
    SnapAt(s, o, r);
    OrderAt(s, o);
  }

  // ---- the remaining steps ----

  lemma FinalizeStock(s: State, p: PaymentId, o: OrderId)
    requires Core(s) && Stock(s) && p in s.db.payments && s.db.payments[p].order == o
    ensures Stock(Finalize(s, p, o))
    ensures !FinalizeOutcome(s, p, o).Refused?
  {
    hide Core, Stock, Cas, Inventory.Deducted, Holds, QuantitiesOf, OtherActive;
    FinalizeClassified(s, p, o);
    if Wins(s.db.orders, o, ToPaid) {
      PaidStock(s, o);
      SameStock(FinalizeFree(s, o), Finalize(s, p, o));
    } else {
      PlainStock(s, o, ToFulfillmentFailedAfterCharge);
      match FinalizeOutcome(s, p, o)
      case Parked => SameStock(Advance(s, o, ToFulfillmentFailedAfterCharge), Finalize(s, p, o));
      case _ =>
    }
  }

  lemma CompensateStock(s: State, p: PaymentId, o: OrderId)
    requires Core(s) && Stock(s)
    ensures Stock(Compensate(s, p, o))
  {
    hide Core, Stock, Cas, OtherActive;
    PlainStock(s, o, ToFulfillmentFailedCompensating);
    if Compensate(s, p, o) != s {
      SameStock(Advance(s, o, ToFulfillmentFailedCompensating), Compensate(s, p, o));
    }
  }

  /** SettleRefund never restores an order it did not itself move to refunded, and its restore
      never fails, so the error it swallows never occurs. */
  lemma SettleStock(s: State, p: PaymentId, o: OrderId)
    requires Core(s) && Stock(s) && Job(p, o) in s.db.jobs && p in s.h.cleared
    ensures Stock(Settle(s, p, o))
    ensures o in s.db.orders
    ensures CanRestore(s.db.levels, QuantitiesOf(s.db.orders[o].items), SettleRestore(s.db.orders[o]))
    ensures !SettleRestore(s.db.orders[o]).Skip? ==> Wins(s.db.orders, o, ToRefunded)
  {
    hide Core, Stock, Restored, QuantitiesOf, Holds, RestoreFor, P.ReleasedPromos, P.ReleasedUsages;
    SettleFindsSettled(s, p, o);
    OwnHold(s, o);
    if Wins(s.db.orders, o, ToRefunded) {
      SettleDue(s, o);
      DueRestoreStock(s, o, ToRefunded);
      SameStock(Reversed(s, o, ToRefunded, DueRestore(s, o)), Settle(s, p, o));
    } else {
      RestoreSkips(s.db.levels, QuantitiesOf(s.db.orders[o].items));
      SameStock(s, Settle(s, p, o));
    }
  }

  lemma SettleDue(s: State, o: OrderId)
    requires Core(s) && o in s.db.orders && Wins(s.db.orders, o, ToRefunded)
    ensures SettleRestore(s.db.orders[o]) == DueRestore(s, o)
  {
    hide Core;
    OrderAt(s, o);
    DispatchAt(s, o);
  }

  lemma RestoreSkips(levels: Levels, q: Quantities)
    ensures Restored(levels, q, Skip) == levels
  {
  }

  lemma RelevelStock(s: State, p: ProductId, levels: Levels)
    requires Core(s) && Stock(s)
    requires levels.Keys == s.db.levels.Keys + {p} && levels == s.db.levels[p := levels[p]]
    requires levels[p].available >= 0
    requires levels[p].reserved == if p in s.db.levels then s.db.levels[p].reserved else 0
    ensures Stock(Relevel(s, p, levels))
  {
    hide Core, LedgerOk, QuantitiesOf, Gone, Held, Sum;
    var s1 := Relevel(s, p, levels);
    forall k | k in levels ensures LevelOk(s1, k) {
      GoneSame(s, s1, k);
      if k in s.db.levels {
        assert LevelOk(s, k);
      } else {
        UnstockedSums(s, p);
      }
    }
    LedgerSame(s, s1);
  }

  lemma LedgerSame(s: State, s1: State)
    requires LedgerOk(s) && s1.db.orders == s.db.orders
    requires s1.h == s.h.(stocked := s1.h.stocked)
    ensures LedgerOk(s1)
  {
    forall o | o in s1.db.orders ensures MovesOk(s1, o) {
      assert MovesOk(s, o);
    }
  }

  /** No order holds or has taken a product without a level. */
  lemma UnstockedSums(s: State, p: ProductId)
    requires Core(s) && p !in s.db.levels
    ensures Sum(Held(s.db.orders, p)) == 0 && Sum(Gone(s, p)) == 0
  {
    hide PayCore, CouponCore, DispatchOk, CartsOk, RowsOk, KeysUnique, SnapsOk, QuantitiesOf;
    SumZero(Held(s.db.orders, p));
    SumZero(Gone(s, p));
  }

  lemma AdjustStock(s: State, p: ProductId, n: int)
    requires Core(s) && Stock(s)
    ensures Stock(Adjust(s, p, n)) && Stock(TopUp(s, p, n)) && Stock(EnsureLevel(s, p))
  {
    hide Core, Stock, Relevel;
    if CanAdjust(s.db.levels, p, n) {
      RelevelStock(s, p, Adjusted(s.db.levels, p, n));
    }
    if CanTopUp(s.db.levels, p, n) {
      RelevelStock(s, p, ToppedUp(s.db.levels, p, n));
    }
    if p !in s.db.levels {
      RelevelStock(s, p, s.db.levels[p := Level(0, 0)]);
    }
  }
}
