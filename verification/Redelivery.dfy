/**
 Redelivery when other things have happened in between. A reaction delivered again leaves
 the shop alone exactly when the shop already stands where the reaction would put it; this
 says what that means for each reaction, and what repeating several of them does.
 */
module Redelivery {
  import opened Options
  import opened Products
  import opened Inventory
  import opened Shops
  import opened Reactions

  /** The line already stands where the reaction would put it: held when all can be held, else not. */
  predicate Settled(shop: Shop, order: OrderId, line: OrderLine, complete: bool) {
    line.quantity > 0 && line.product in shop.products ==>
      (order in shop.products[line.product].reservations <==> complete)
  }

  /** The stock half: with no line short every line is still held; with a line short no earlier one is. */
  lemma StockUntouchedExactlyWhen(shop: Shop, order: OrderId, lines: seq<OrderLine>)
    requires Consistent(lines)
    ensures var k := FirstShort(shop.products, order, lines);
            AfterPlaced(shop, order, lines).products == shop.products <==>
            forall i :: 0 <= i < k ==> Settled(shop, order, lines[i], k == |lines|)
  {
    hide After, Handled, LineFor, Settled, Consistent, FirstShort;
    var k, end := FirstShort(shop.products, order, lines), AfterPlaced(shop, order, lines);
    forall i | 0 <= i < k && lines[i].product in shop.products
      ensures end.products[lines[i].product] == shop.products[lines[i].product] <==>
                Settled(shop, order, lines[i], k == |lines|)
    {
      LineUntouched(shop, order, lines, i);
    }
    forall i | 0 <= i < k && lines[i].product !in shop.products ensures Settled(shop, order, lines[i], k == |lines|) {
      MissingSettled(shop, order, lines[i], k == |lines|);
    }
    forall p | p in shop.products
      ensures end.products[p] == shop.products[p] || exists i :: 0 <= i < k && lines[i].product == p
    {
      OnlyLinesTouched(shop, order, lines, p);
    }
  }

  lemma MissingSettled(shop: Shop, order: OrderId, line: OrderLine, complete: bool)
    requires line.product !in shop.products
    ensures Settled(shop, order, line, complete)
  {
  }

  lemma LineUntouched(shop: Shop, order: OrderId, lines: seq<OrderLine>, i: nat)
    requires Consistent(lines) && i < FirstShort(shop.products, order, lines) && lines[i].product in shop.products
    ensures var k, p := FirstShort(shop.products, order, lines), lines[i].product;
            AfterPlaced(shop, order, lines).products[p] == shop.products[p] <==>
              Settled(shop, order, lines[i], k == |lines|)
  {
    assert lines[..|lines|] == lines;
    LineForAt(lines, FirstShort(shop.products, order, lines), i);
  }

  lemma OnlyLinesTouched(shop: Shop, order: OrderId, lines: seq<OrderLine>, p: ProductId)
    requires p in shop.products
    ensures var k := FirstShort(shop.products, order, lines);
            AfterPlaced(shop, order, lines).products[p] == shop.products[p]
            || exists i :: 0 <= i < k && lines[i].product == p
  {
    var k := FirstShort(shop.products, order, lines);
    assert lines[..|lines|] == lines;
    LineForIs(lines[..k], p);
    if LineFor(lines[..k], p).Some? {
      var j :| 0 <= j < k && lines[j] == OrderLine(p, LineFor(lines[..k], p).value);
    }
  }

  /** The whole condition: stock settled, no open order to cancel, no payment to ask for. */
  predicate StandsPlaced(shop: Shop, order: OrderId, lines: seq<OrderLine>) {
    var k, price := FirstShort(shop.products, order, lines), Price(shop.products, lines);
    && (forall i :: 0 <= i < k ==> Settled(shop, order, lines[i], k == |lines|))
    && (k < |lines| ==> order !in shop.orders || shop.orders[order].status !in {Placed, Confirmed})
    && (k == |lines| ==> order in shop.payments || price.None? || price.value == 0)
  }

  /** Whatever happened since, a redelivered `OrderPlaced` leaves the shop alone if and only if the shop stands so. */
  lemma {:induction false} PlacedUntouchedExactlyWhen(shop: Shop, order: OrderId, lines: seq<OrderLine>)
    requires Consistent(lines)
    ensures SameState(AfterPlaced(shop, order, lines), shop) <==> StandsPlaced(shop, order, lines)
  {
    hide Settled, FirstShort, Price, Each, Compensated, Consistent;
    StockUntouchedExactlyWhen(shop, order, lines);
  }

  /** A captured payment has nothing left to do: the order is not waiting, and none of its lines is held. */
  predicate StandsCaptured(shop: Shop, order: OrderId) {
    order in shop.orders ==>
      && shop.orders[order].status != Placed
      && forall i :: 0 <= i < |shop.orders[order].lines| ==> NotHeld(shop, order, shop.orders[order].lines[i])
  }

  predicate NotHeld(shop: Shop, order: OrderId, line: OrderLine) {
    line.product in shop.products ==> order !in shop.products[line.product].reservations
  }

  lemma {:induction false} CapturedUntouchedExactlyWhen(shop: Shop, order: OrderId)
    ensures SameState(AfterCaptured(shop, order), shop) <==> StandsCaptured(shop, order)
  {
    if order in shop.orders {
      var lines := shop.orders[order].lines;
      var end := Each(shop.products, order, lines, Committing);
      forall p | p in shop.products
        ensures end[p] == shop.products[p] <==> LineFor(lines, p).None? || order !in shop.products[p].reservations
      {
        CommitTouches(shop.products[p], order, LineFor(lines, p));
      }
      forall p | p in shop.products
        ensures LineFor(lines, p).Some? <==> exists i :: 0 <= i < |lines| && lines[i].product == p
      {
        LineForIs(lines, p);
      }
    }
  }

  lemma CommitTouches(p: ProductState, order: OrderId, quantity: Option<nat>)
    ensures quantity.Some? ==>
              (After(p, CommitReservation(order, quantity.value)) == p <==> order !in p.reservations)
  {
  }

  /** A failed payment is over once the order is no longer open. */
  predicate StandsFailed(shop: Shop, order: OrderId) {
    order in shop.orders ==> shop.orders[order].status !in {Placed, Confirmed}
  }

  lemma FailedUntouchedExactlyWhen(shop: Shop, order: OrderId)
    ensures SameState(AfterFailed(shop, order), shop) <==> StandsFailed(shop, order)
  {
    if !StandsFailed(shop, order) {
      assert AfterFailed(shop, order).orders[order].status == Cancelled;
    }
  }

  /** An event with a reaction, by the order it concerns. `OrderPlaced` carries its order's lines. */
  datatype Reaction = OnPlaced(order: OrderId) | OnCaptured(order: OrderId) | OnFailed(order: OrderId)

  function React(shop: Shop, r: Reaction): Shop {
    match r
    case OnPlaced(o) => if o in shop.orders then AfterPlaced(shop, o, shop.orders[o].lines) else shop
    case OnCaptured(o) => AfterCaptured(shop, o)
    case OnFailed(o) => AfterFailed(shop, o)
  }

  predicate Stands(shop: Shop, r: Reaction) {
    match r
    case OnPlaced(o) => o in shop.orders ==> StandsPlaced(shop, o, shop.orders[o].lines)
    case OnCaptured(o) => StandsCaptured(shop, o)
    case OnFailed(o) => StandsFailed(shop, o)
  }

  /** What a restart does with the reactions past its checkpoint: all of them again, in order. */
  function Replay(shop: Shop, rs: seq<Reaction>): Shop {
    if rs == [] then shop else React(Replay(shop, rs[..|rs| - 1]), rs[|rs| - 1])
  }

  lemma {:induction false} StandsExactlyWhen(shop: Shop, r: Reaction)
    requires Sound(shop)
    ensures SameState(React(shop, r), shop) <==> Stands(shop, r)
  {
    hide StandsPlaced, StandsCaptured, StandsFailed, AfterPlaced, AfterCaptured, AfterFailed;
    match r
    case OnPlaced(o) =>
      if o in shop.orders {
        PlacedUntouchedExactlyWhen(shop, o, shop.orders[o].lines);
      }
    case OnCaptured(o) => CapturedUntouchedExactlyWhen(shop, o);
    case OnFailed(o) => FailedUntouchedExactlyWhen(shop, o);
  }

  /** A reaction depends on the state alone, not on the log. */
  lemma {:induction false} ReactSameState(a: Shop, b: Shop, r: Reaction)
    requires SameState(a, b)
    ensures SameState(React(a, r), React(b, r))
  {
  }

  ghost predicate StillAfter(shop: Shop, rs: seq<Reaction>, n: nat)
    requires n <= |rs|
  {
    SameState(Replay(shop, rs[..n]), shop)
  }

  /**
   Replaying a span of reactions leaves the shop alone at every point if and only if the
   shop stands where each of them would put it.
   */
  lemma {:induction false} ReplayHarmlessExactlyWhen(shop: Shop, rs: seq<Reaction>)
    requires Sound(shop)
    ensures (forall n :: 0 <= n <= |rs| ==> StillAfter(shop, rs, n)) <==>
              forall i :: 0 <= i < |rs| ==> Stands(shop, rs[i])
  {
    hide React, Stands, Sound;
    if forall i :: 0 <= i < |rs| ==> Stands(shop, rs[i]) {
      forall n | 0 <= n <= |rs| ensures StillAfter(shop, rs, n) {
        StandingReplays(shop, rs, n);
      }
    } else {
      var i :| 0 <= i < |rs| && !Stands(shop, rs[i]);
      if StillAfter(shop, rs, i) {
        StandsExactlyWhen(shop, rs[i]);
        ReactSameState(Replay(shop, rs[..i]), shop, rs[i]);
        assert rs[..i + 1][..i] == rs[..i];
        assert !StillAfter(shop, rs, i + 1);
      }
    }
  }

  lemma {:induction false} StandingReplays(shop: Shop, rs: seq<Reaction>, n: nat)
    requires Sound(shop) && n <= |rs| && forall i :: 0 <= i < |rs| ==> Stands(shop, rs[i])
    ensures StillAfter(shop, rs, n)
  {
    hide React, Stands, Sound;
    if n > 0 {
      StandingReplays(shop, rs, n - 1);
      assert rs[..n][..n - 1] == rs[..n - 1];
      StandsExactlyWhen(shop, rs[n - 1]);
      ReactSameState(Replay(shop, rs[..n - 1]), shop, rs[n - 1]);
    }
  }

  /** The reaction just completed always stands: repeating the last one alone is harmless. */
  lemma {:induction false} JustDoneStands(shop: Shop, r: Reaction)
    requires Sound(shop)
    ensures SameState(React(React(shop, r), r), React(shop, r))
  {
    match r
    case OnPlaced(o) =>
      if o in shop.orders {
        PlacedIdempotent(shop, o, shop.orders[o].lines);
      }
    case OnCaptured(o) => CapturedIdempotent(shop, o);
    case OnFailed(o) => FailedIdempotent(shop, o);
  }

  /** But once an order is confirmed and its stock gone, its `OrderPlaced` never stands. */
  lemma {:induction false} ShippedStockNeverStands(shop: Shop, order: OrderId, i: nat)
    requires order in shop.orders && shop.orders[order].status == Confirmed && i < |shop.orders[order].lines|
    requires var line := shop.orders[order].lines[i];
             line.quantity > 0 && line.product in shop.products && order !in shop.products[line.product].reservations
    ensures !Stands(shop, OnPlaced(order))
  {
    var lines := shop.orders[order].lines;
    if FirstShort(shop.products, order, lines) == |lines| {
      assert !Settled(shop, order, lines[i], true);
    }
  }

  /** A shop with one product, opened with `stock`, and one order for two of it. */
  function OneOrder(stock: nat, onHand: nat, held: map<OrderId, nat>, status: OrderStatus,
      payments: map<OrderId, Payment>): Shop {
    Shop(map[1 := ProductState(10, onHand, held)], map[7 := Order(status, [OrderLine(1, 2)])], payments,
         [Record(1, Listed("", stock, 10))])
  }

  /** Placed by a customer, reserved, captured, confirmed and taken off the shelf: nothing out of the ordinary. */
  function Sold(stock: nat): Shop
    requires stock >= 2
  {
    OneOrder(stock, stock - 2, map[], Confirmed, map[7 := Payment(Captured, 20)])
  }

  lemma OrderReached(stock: nat)
    ensures Run(EMPTY, [ListProduct(1, "", stock, 10), PlaceOrder(7, [OrderLine(1, 2)])])
            == OneOrder(stock, stock, map[], Placed, map[])
  {
    var cmds := [ListProduct(1, "", stock, 10), PlaceOrder(7, [OrderLine(1, 2)])];
    assert cmds[..1][..0] == [];
    assert Run(EMPTY, cmds[..1]) == Execute(EMPTY, cmds[0]).0;
  }

  lemma OrderReserved(stock: nat)
    requires stock >= 2
    ensures React(OneOrder(stock, stock, map[], Placed, map[]), OnPlaced(7))
         == OneOrder(stock, stock, map[7 := 2], Placed, map[7 := Payment(Authorized, 20)])
  {
    var products := map[1 := ProductState(10, stock, map[])];
    assert !IsShort(products, 7, OrderLine(1, 2));
    assert [OrderLine(1, 2)][..0] == [] && [OrderLine(1, 2)][1..] == [];
    assert Price(products, [OrderLine(1, 2)]) == Some(20);
  }

  lemma OrderTaken(stock: nat)
    requires stock >= 2
    ensures React(OneOrder(stock, stock, map[7 := 2], Placed, map[7 := Payment(Captured, 20)]), OnCaptured(7))
            == Sold(stock)
  {
    assert map[7 := 2] - {7} == map[];
  }

  lemma SoldReached(stock: nat)
    requires stock >= 2
    ensures var shop := Run(EMPTY, [ListProduct(1, "", stock, 10), PlaceOrder(7, [OrderLine(1, 2)])]);
            React(Execute(React(shop, OnPlaced(7)), Capture(7)).0, OnCaptured(7)) == Sold(stock)
  {
    hide React, Run;
    OrderReached(stock);
    OrderReserved(stock);
    assert map[7 := Payment(Authorized, 20)][7 := Payment(Captured, 20)] == map[7 := Payment(Captured, 20)];
    OrderTaken(stock);
  }

  /** With the last two sold, a repeated `OrderPlaced` cancels the order, whose payment stays captured. */
  lemma CancelsPaidOrder()
    ensures React(Sold(2), OnPlaced(7)) == OneOrder(2, 0, map[], Cancelled, map[7 := Payment(Captured, 20)])
  {
    assert IsShort(Sold(2).products, 7, OrderLine(1, 2));
  }

  /** With stock left, a repeated `OrderPlaced` holds it again. */
  lemma ReservesAgain()
    ensures React(Sold(4), OnPlaced(7)) == OneOrder(4, 2, map[7 := 2], Confirmed, map[7 := Payment(Captured, 20)])
  {
    assert !IsShort(Sold(4).products, 7, OrderLine(1, 2));
    assert [OrderLine(1, 2)][..0] == [] && [OrderLine(1, 2)][1..] == [];
  }

  lemma TakenAgain()
    ensures React(OneOrder(4, 2, map[7 := 2], Confirmed, map[7 := Payment(Captured, 20)]), OnCaptured(7))
         == OneOrder(4, 0, map[], Confirmed, map[7 := Payment(Captured, 20)])
  {
    assert map[7 := 2] - {7} == map[];
  }

  /** And a repeated `PaymentCaptured` then takes it a second time: four gone for an order of two. */
  lemma TakesStockTwice()
    ensures Replay(Sold(4), [OnPlaced(7), OnCaptured(7)])
            == OneOrder(4, 0, map[], Confirmed, map[7 := Payment(Captured, 20)])
  {
    hide React;
    ReservesAgain();
    TakenAgain();
    var rs := [OnPlaced(7), OnCaptured(7)];
    assert rs[..1][..0] == [] && Replay(Sold(4), rs[..1]) == React(Sold(4), OnPlaced(7));
  }
}
