/**
 The `FulfillmentCoordinator`: reactions that issue one command after another. Before each
 command others may act, and at any command the reaction may be cut short: by a crash, or
 by an infrastructure failure that asks for redelivery.
 */
module Coordinator {
  import opened Options
  import opened Products
  import opened Shops
  import opened Reactions

  /** `Broken` is a fatal error: an order names a product that does not exist. */
  datatype Ended = Completed | Broken | CutShort

  class FulfillmentCoordinator {
    /** What others do before each of its commands; `budget` commands get through. */
    const others: nat -> seq<Command>
    var shop: Shop
    var turn: nat
    var budget: nat

    constructor (shop: Shop, others: nat -> seq<Command>, budget: nat)
      ensures this.shop == shop && this.others == others && this.budget == budget
    {
      this.shop, this.others, this.budget, this.turn := shop, others, budget, 0;
    }

    ghost predicate Quiet() {
      forall i :: others(i) == []
    }

    method Issue(cmd: Command) returns (reply: Option<Reply>)
      requires Sound(shop) && Permitted(shop, cmd)
      modifies this
      ensures Sound(shop) && OrdersStay(old(shop), shop)
      ensures var met := Run(old(shop), others(old(turn)));
              if reply.None? then shop == met else (shop, reply.value) == Execute(met, cmd)
      ensures Quiet() ==> if reply.None? then shop == old(shop) else (shop, reply.value) == Execute(old(shop), cmd)
      ensures reply.None? <==> old(budget) == 0
      ensures budget == if reply.None? then 0 else old(budget) - 1
    {
      RunSound(shop, others(turn));
      PermittedStays(shop, Run(shop, others(turn)), cmd);
      shop := Run(shop, others(turn));
      turn := turn + 1;
      if budget == 0 {
        return None;
      }
      budget := budget - 1;
      ExecuteSound(shop, cmd);
      var (next, answer) := Execute(shop, cmd);
      shop := next;
      reply := Some(answer);
    }

    /** One command per line, rejections ignored: `release_lines`, and the commit loop. */
    method ForEachLine(order: OrderId, lines: seq<OrderLine>, verb: Verb) returns (n: nat)
      requires Sound(shop) && Consistent(lines) && AreLines(shop, order, lines)
      modifies this
      ensures Sound(shop) && OrdersStay(old(shop), shop)
      ensures n == (if old(budget) < |lines| then old(budget) else |lines|) && budget == old(budget) - n
      ensures Quiet() ==>
                shop == old(shop).(products := Each(old(shop).products, order, lines[..n], verb), log := shop.log)
    {
      hide Sound, Execute, Each, Run, IsLine, Consistent;
      n := 0;
      NoLines(shop.products, order, verb);
      while n < |lines|
        invariant n <= |lines| && Sound(shop) && OrdersStay(old(shop), shop)
        invariant n <= old(budget) && budget == old(budget) - n
        invariant Quiet() ==>
                    shop == old(shop).(products := Each(old(shop).products, order, lines[..n], verb), log := shop.log)
      {
        ghost var before := shop;
        LinesStay(old(shop), shop, order, lines);
        var reply := Issue(Stock(lines[n].product, CommandFor(verb, order, lines[n].quantity)));
        if reply.None? {
          return;
        }
        if Quiet() {
          LineStep(old(shop), before, order, lines, n, verb);
        }
        n := n + 1;
      }
    }

    /** `OrderPlaced`: reserve each line; undo and cancel when one is short; else authorise the payment. */
    method OnOrderPlaced(order: OrderId, lines: seq<OrderLine>) returns (ended: Ended)
      requires Sound(shop) && order in shop.orders && shop.orders[order].lines == lines
      modifies this
      ensures Sound(shop) && OrdersStay(old(shop), shop)
      ensures Quiet() ==> if ended.CutShort? then UnderwayPlaced(old(shop), shop, order, lines)
                          else SameState(shop, AfterPlaced(old(shop), order, lines))
      ensures old(budget) > 2 * |lines| ==> !ended.CutShort?
      ensures Quiet() && !ended.CutShort? ==> (ended.Broken? <==> Unpriceable(old(shop), order, lines))
    {
      hide Sound, Execute, Each, Compensated, FirstShort, Run;
      ghost var start := shop;
      var reserved: seq<OrderLine> := [];
      var i := 0;
      ConsistentLines(shop, order);
      NoLines(shop.products, order, Reserving);
      while i < |lines|
        invariant i <= |lines| && Sound(shop) && OrdersStay(start, shop)
        invariant Consistent(reserved) && AreLines(start, order, reserved)
        invariant |reserved| <= i <= old(budget) && budget == old(budget) - i
        invariant forall l :: l in reserved ==> l in lines[..i]
        invariant Quiet() ==>
          shop == start.(products := Each(start.products, order, lines[..i], Reserving), log := shop.log)
        invariant Quiet() ==>
                    i <= FirstShort(start.products, order, lines) && reserved == Reservable(start.products, lines[..i])
      {
        ghost var before := shop;
        LinesStay(start, shop, order, lines);
        var reply := Issue(Stock(lines[i].product, Reserve(order, lines[i].quantity)));
        if Quiet() {
          ReserveStep(start, before, order, lines, i);
        }
        if reply.None? {
          if Quiet() { StillReserving(start, shop, order, lines, i); }
          return CutShort;
        }
        match reply.value {
          case Done =>
            ConsistentAppend(reserved, lines, i);
            reserved := reserved + [lines[i]];
          case Short =>
            ended := Compensate(order, lines, reserved, start, i);
            return;
          case Refused =>
        }
        i := i + 1;
      }
      assert lines[..|lines|] == lines;
      ended := AuthorizePayment(order, lines, start);
    }

    /** Every line can be held and payment is still to be asked for, but a line's product does not exist. */
    ghost predicate Unpriceable(start: Shop, order: OrderId, lines: seq<OrderLine>) {
      && FirstShort(start.products, order, lines) == |lines| && order !in start.payments
      && Price(start.products, lines).None?
    }

    /**
     At-least-once delivery of one `OrderPlaced`: attempts cut short anywhere, each followed
     by redelivery, until one gets through. The shop ends as one undisturbed reaction leaves it.
     */
    method DeliverPlaced(order: OrderId, lines: seq<OrderLine>, budgets: seq<nat>) returns (ended: Ended)
      requires Sound(shop) && order in shop.orders && shop.orders[order].lines == lines
      modifies this
      ensures Sound(shop)
      ensures Quiet() ==> if ended.CutShort? then UnderwayPlaced(old(shop), shop, order, lines)
                          else SameState(shop, AfterPlaced(old(shop), order, lines))
      ensures ended.CutShort? ==> forall i :: 0 <= i < |budgets| ==> budgets[i] <= 2 * |lines|
    {
      hide Sound, AfterPlaced, UnderwayPlaced, Unpriceable;
      ended := CutShort;
      NotStarted(shop, order, lines);
      var i := 0;
      while i < |budgets|
        invariant Sound(shop) && OrdersStay(old(shop), shop)
        invariant ended.CutShort? && (Quiet() ==> UnderwayPlaced(old(shop), shop, order, lines))
        invariant i <= |budgets| && forall j :: 0 <= j < i ==> budgets[j] <= 2 * |lines|
      {
        ghost var before := shop;
        budget := budgets[i];
        ended := OnOrderPlaced(order, lines);
        if Quiet() {
          if ended.CutShort? {
            PlacedComposes(old(shop), before, shop, order, lines);
          } else {
            PlacedConverges(old(shop), before, order, lines);
          }
        }
        if !ended.CutShort? {
          return;
        }
        i := i + 1;
      }
    }

    /** Release what was reserved, then cancel the order. */
    method Compensate(order: OrderId, lines: seq<OrderLine>, reserved: seq<OrderLine>, ghost start: Shop, ghost k: nat)
      returns (ended: Ended)
      requires Sound(shop) && OrdersStay(start, shop) && Consistent(lines)
      requires Consistent(reserved) && AreLines(start, order, reserved)
      requires Quiet() ==> k < |lines| && k == FirstShort(start.products, order, lines)
      requires Quiet() ==> reserved == Reservable(start.products, lines[..k])
      requires Quiet() ==>
                 shop == start.(products := Each(start.products, order, lines[..k], Reserving), log := shop.log)
      modifies this
      ensures Sound(shop) && OrdersStay(start, shop) && !ended.Broken?
      ensures ended.CutShort? <==> old(budget) <= |reserved|
      ensures Quiet() ==> if ended.CutShort? then UnderwayPlaced(start, shop, order, lines)
                          else SameState(shop, AfterPlaced(start, order, lines))
    {
      hide Sound, Execute, Each, Compensated, FirstShort, UnderwayPlaced;
      LinesStay(start, shop, order, reserved);
      ghost var entry := shop;
      var n := ForEachLine(order, reserved, Releasing);
      if Quiet() {
        ReleasedAlong(start, shop, order, lines, k, n);
      }
      if n < |reserved| {
        return CutShort;
      }
      assert reserved[..n] == reserved;
      ghost var released := shop;
      var reply := Issue(Cancel(order));
      if reply.None? {
        return CutShort;
      }
      if Quiet() {
        CancelEffect(released, order);
      }
      ended := Completed;
    }

    /** Authorise the payment for the order total, unless it exists already. */
    method AuthorizePayment(order: OrderId, lines: seq<OrderLine>, ghost start: Shop) returns (ended: Ended)
      requires Sound(shop) && OrdersStay(start, shop) && Consistent(lines)
      requires Quiet() ==> FirstShort(start.products, order, lines) == |lines|
      requires Quiet() ==> shop == start.(products := Each(start.products, order, lines, Reserving), log := shop.log)
      modifies this
      ensures Sound(shop) && OrdersStay(start, shop)
      ensures ended.CutShort? ==> old(budget) == 0
      ensures Quiet() ==> (ended.Broken? <==> Unpriceable(start, order, lines))
      ensures Quiet() ==> if ended.CutShort? then UnderwayPlaced(start, shop, order, lines)
                          else SameState(shop, AfterPlaced(start, order, lines))
    {
      hide Sound, Each, Compensated, FirstShort, UnderwayPlaced;
      if Quiet() {
        assert lines[..|lines|] == lines;
        StillReserving(start, shop, order, lines, |lines|);
        EachKeepsPrices(start.products, order, lines);
      }
      if order in shop.payments {
        return Completed;
      }
      var price := PriceOrder(lines);
      if price.None? {
        return Broken;
      }
      var reply := Issue(Authorize(order, price.value));
      ended := if reply.None? then CutShort else Completed;
    }

    method PriceOrder(lines: seq<OrderLine>) returns (total: Option<nat>)
      ensures total == Price(shop.products, lines)
    {
      var sum := 0;
      var i := 0;
      while i < |lines|
        invariant i <= |lines| && Price(shop.products, lines[..i]) == Some(sum)
      {
        assert lines[..i + 1][..i] == lines[..i];
        if lines[i].product !in shop.products {
          PriceMissing(shop.products, lines, i + 1);
          return None;
        }
        sum := sum + shop.products[lines[i].product].unitPrice * lines[i].quantity;
        i := i + 1;
      }
      assert lines[..|lines|] == lines;
      total := Some(sum);
    }

    /** `PaymentCaptured`: confirm the order if it is still placed, then commit every line. */
    method OnPaymentCaptured(order: OrderId) returns (ended: Ended)
      requires Sound(shop)
      modifies this
      ensures Sound(shop) && OrdersStay(old(shop), shop) && !ended.Broken?
      ensures Quiet() ==> if ended.CutShort? then UnderwayCaptured(old(shop), shop, order)
                          else SameState(shop, AfterCaptured(old(shop), order))
      ensures order in old(shop).orders && old(budget) > |old(shop).orders[order].lines| ==> !ended.CutShort?
    {
      hide Sound, Each;
      if order !in shop.orders {
        return Completed;
      }
      var loaded := shop.orders[order];
      ConsistentLines(shop, order);
      NoLines(shop.products, order, Committing);
      if loaded.status == Placed {
        var reply := Issue(Confirm(order));
        if reply.None? {
          return CutShort;
        }
      }
      LinesStay(old(shop), shop, order, loaded.lines);
      var n := ForEachLine(order, loaded.lines, Committing);
      EachPartWay(old(shop).products, order, loaded.lines, n, Committing);
      if n < |loaded.lines| {
        return CutShort;
      }
      assert loaded.lines[..n] == loaded.lines;
      ended := Completed;
    }

    /** At-least-once delivery of one `PaymentCaptured`. */
    method DeliverCaptured(order: OrderId, budgets: seq<nat>) returns (ended: Ended)
      requires Sound(shop)
      modifies this
      ensures Sound(shop) && !ended.Broken?
      ensures Quiet() ==> if ended.CutShort? then shop == old(shop) || UnderwayCaptured(old(shop), shop, order)
                          else SameState(shop, AfterCaptured(old(shop), order))
      ensures ended.CutShort? && order in old(shop).orders ==>
                forall i :: 0 <= i < |budgets| ==> budgets[i] <= |old(shop).orders[order].lines|
    {
      hide Sound, AfterCaptured, UnderwayCaptured;
      ended := CutShort;
      var i := 0;
      while i < |budgets|
        invariant Sound(shop) && ended.CutShort?
        invariant Quiet() ==> shop == old(shop) || UnderwayCaptured(old(shop), shop, order)
        invariant OrdersStay(old(shop), shop) && i <= |budgets|
        invariant order in old(shop).orders ==>
                    forall j :: 0 <= j < i ==> budgets[j] <= |old(shop).orders[order].lines|
      {
        ghost var before := shop;
        budget := budgets[i];
        ended := OnPaymentCaptured(order);
        if Quiet() && before != old(shop) {
          if ended.CutShort? {
            CapturedComposes(old(shop), before, shop, order);
          } else {
            CapturedConverges(old(shop), before, order);
          }
        }
        if !ended.CutShort? {
          return;
        }
        i := i + 1;
      }
    }

    /** `PaymentFailed`: release every line of an open order, then cancel it. */
    method OnPaymentFailed(order: OrderId) returns (ended: Ended)
      requires Sound(shop)
      modifies this
      ensures Sound(shop) && OrdersStay(old(shop), shop) && !ended.Broken?
      ensures Quiet() ==> if ended.CutShort? then UnderwayFailed(old(shop), shop, order)
                          else SameState(shop, AfterFailed(old(shop), order))
      ensures order in old(shop).orders && old(budget) > |old(shop).orders[order].lines| ==> !ended.CutShort?
    {
      hide Sound, Each;
      if order !in shop.orders || shop.orders[order].status !in {Placed, Confirmed} {
        return Completed;
      }
      var loaded := shop.orders[order];
      ConsistentLines(shop, order);
      var n := ForEachLine(order, loaded.lines, Releasing);
      EachPartWay(old(shop).products, order, loaded.lines, n, Releasing);
      if n < |loaded.lines| {
        return CutShort;
      }
      assert loaded.lines[..n] == loaded.lines;
      var reply := Issue(Cancel(order));
      ended := if reply.None? then CutShort else Completed;
    }

    /** At-least-once delivery of one `PaymentFailed`. */
    method DeliverFailed(order: OrderId, budgets: seq<nat>) returns (ended: Ended)
      requires Sound(shop)
      modifies this
      ensures Sound(shop) && !ended.Broken?
      ensures Quiet() ==> if ended.CutShort? then shop == old(shop) || UnderwayFailed(old(shop), shop, order)
                          else SameState(shop, AfterFailed(old(shop), order))
      ensures ended.CutShort? && order in old(shop).orders ==>
                forall i :: 0 <= i < |budgets| ==> budgets[i] <= |old(shop).orders[order].lines|
    {
      hide Sound, AfterFailed, UnderwayFailed;
      ended := CutShort;
      var i := 0;
      while i < |budgets|
        invariant Sound(shop) && ended.CutShort?
        invariant Quiet() ==> shop == old(shop) || UnderwayFailed(old(shop), shop, order)
        invariant OrdersStay(old(shop), shop) && i <= |budgets|
        invariant order in old(shop).orders ==>
                    forall j :: 0 <= j < i ==> budgets[j] <= |old(shop).orders[order].lines|
      {
        ghost var before := shop;
        budget := budgets[i];
        ended := OnPaymentFailed(order);
        if Quiet() && before != old(shop) {
          if ended.CutShort? {
            FailedComposes(old(shop), before, shop, order);
          } else {
            FailedConverges(old(shop), before, order);
          }
        }
        if !ended.CutShort? {
          return;
        }
        i := i + 1;
      }
    }
  }

  ghost predicate AreLines(shop: Shop, order: OrderId, lines: seq<OrderLine>) {
    forall i :: 0 <= i < |lines| ==> IsLine(shop, order, lines[i].product, lines[i].quantity)
  }

  /** The lines whose reservation is accepted when none is short. */
  function Reservable(products: map<ProductId, ProductState>, lines: seq<OrderLine>): seq<OrderLine> {
    if lines == [] then []
    else
      var front, line := Reservable(products, lines[..|lines| - 1]), lines[|lines| - 1];
      if line.quantity > 0 && line.product in products then front + [line] else front
  }

  lemma LinesStay(before: Shop, after: Shop, order: OrderId, lines: seq<OrderLine>)
    requires OrdersStay(before, after) && AreLines(before, order, lines)
    ensures AreLines(after, order, lines)
  {
  }

  /** Some of the earlier lines and the next one. */
  lemma ConsistentAppend(some: seq<OrderLine>, lines: seq<OrderLine>, i: nat)
    requires i < |lines| && Consistent(lines) && Consistent(some) && forall l :: l in some ==> l in lines[..i]
    ensures Consistent(some + [lines[i]])
  {
    forall j | 0 <= j < |some| && some[j].product == lines[i].product ensures some[j].quantity == lines[i].quantity {
      assert some[j] in some;
      var t :| 0 <= t < i && lines[t] == some[j];
    }
  }

  lemma NoLines(products: map<ProductId, ProductState>, order: OrderId, verb: Verb)
    ensures Each(products, order, [], verb) == products
  {
  }

  lemma ConsistentLines(shop: Shop, order: OrderId)
    requires Sound(shop) && order in shop.orders
    ensures Consistent(shop.orders[order].lines) && AreLines(shop, order, shop.orders[order].lines)
  {
  }

  /** A command for one line, as it changes the products. */
  lemma LineStep(start: Shop, before: Shop, order: OrderId, lines: seq<OrderLine>, i: nat, verb: Verb)
    requires i < |lines| && Consistent(lines)
    requires before == start.(products := Each(start.products, order, lines[..i], verb), log := before.log)
    ensures var next := Execute(before, Stock(lines[i].product, CommandFor(verb, order, lines[i].quantity))).0;
            next == start.(products := Each(start.products, order, lines[..i + 1], verb), log := next.log)
  {
    EachStep(start.products, order, lines, i, verb);
  }

  /** The next reservation: accepted, refused for good, or the first line that is short. */
  lemma {:induction false} ReserveStep(start: Shop, before: Shop, order: OrderId, lines: seq<OrderLine>, i: nat)
    requires i < |lines| && Consistent(lines) && i <= FirstShort(start.products, order, lines)
    requires before == start.(products := Each(start.products, order, lines[..i], Reserving), log := before.log)
    ensures var (next, reply) := Execute(before, Stock(lines[i].product, Reserve(order, lines[i].quantity)));
            && (reply.Short? ==> next == before && i == FirstShort(start.products, order, lines))
            && (!reply.Short? ==>
                  && i + 1 <= FirstShort(start.products, order, lines)
                  && next == start.(products := Each(start.products, order, lines[..i + 1], Reserving), log := next.log)
                  && Reservable(start.products, lines[..i + 1]) ==
                       Reservable(start.products, lines[..i]) + (if reply.Done? then [lines[i]] else []))
  {
    LineStep(start, before, order, lines, i, Reserving);
    EachStep(start.products, order, lines, i, Reserving);
    assert lines[..i + 1][..i] == lines[..i];
  }

  lemma LineForPrefix(lines: seq<OrderLine>, n: nat, m: nat, p: ProductId)
    requires Consistent(lines) && n <= m <= |lines| && LineFor(lines[..n], p).Some?
    ensures LineFor(lines[..m], p) == LineFor(lines[..n], p)
  {
    LineForIs(lines[..n], p);
    var i :| 0 <= i < n && lines[i] == OrderLine(p, LineFor(lines[..n], p).value);
    LineForAt(lines, m, i);
  }

  lemma NotStarted(shop: Shop, order: OrderId, lines: seq<OrderLine>)
    ensures UnderwayPlaced(shop, shop, order, lines)
  {
  }

  lemma StillReserving(start: Shop, mid: Shop, order: OrderId, lines: seq<OrderLine>, i: nat)
    requires Consistent(lines) && i <= FirstShort(start.products, order, lines)
    requires mid == start.(products := Each(start.products, order, lines[..i], Reserving), log := mid.log)
    ensures UnderwayPlaced(start, mid, order, lines)
  {
    var k := FirstShort(start.products, order, lines);
    forall p | p in start.products
      ensures Along(start.products[p], mid.products[p], order, LineFor(lines[..k], p), k < |lines|)
    {
      if LineFor(lines[..i], p).Some? {
        LineForPrefix(lines, i, k, p);
      }
    }
  }

  lemma {:induction false} ReservableConsistent(products: map<ProductId, ProductState>, lines: seq<OrderLine>)
    requires Consistent(lines)
    ensures Consistent(Reservable(products, lines)) && forall l :: l in Reservable(products, lines) ==> l in lines
  {
    if lines != [] {
      var front := lines[..|lines| - 1];
      ReservableConsistent(products, front);
      ConsistentAppend(Reservable(products, front), lines, |lines| - 1);
      assert lines == front + [lines[|lines| - 1]];
    }
  }

  lemma {:induction false} LineForReservable(products: map<ProductId, ProductState>, lines: seq<OrderLine>,
      p: ProductId)
    requires Consistent(lines)
    ensures LineFor(Reservable(products, lines), p) ==
            var q := LineFor(lines, p); if q.Some? && q.value > 0 && p in products then q else None
  {
    if lines != [] {
      var front, line := lines[..|lines| - 1], lines[|lines| - 1];
      LineForReservable(products, front, p);
      LineForAt(lines, |front|, |front|);
      var reserved := Reservable(products, front);
      assert (reserved + [line])[..|reserved + [line]| - 1] == reserved;
    }
  }

  /** Releasing what was reserved passes only through states along the way, and ends compensated. */
  lemma {:induction false} ReleasedAlong(start: Shop, mid: Shop, order: OrderId, lines: seq<OrderLine>, k: nat, n: nat)
    requires Consistent(lines) && k < |lines| && k == FirstShort(start.products, order, lines)
    requires n <= |Reservable(start.products, lines[..k])|
    requires mid == start.(products := Each(Each(start.products, order, lines[..k], Reserving), order,
                                            Reservable(start.products, lines[..k])[..n], Releasing), log := mid.log)
    ensures UnderwayPlaced(start, mid, order, lines)
    ensures n == |Reservable(start.products, lines[..k])| ==>
              mid.products == Compensated(start.products, order, lines[..k])
  {
    var reserved := Reservable(start.products, lines[..k]);
    forall p | p in start.products
      ensures Along(start.products[p], mid.products[p], order, LineFor(lines[..k], p), true)
      ensures n == |reserved| ==> mid.products[p] == Compensated(start.products, order, lines[..k])[p]
    {
      ReleasedProduct(start.products, order, lines, k, n, p);
    }
  }

  lemma ReleasedProduct(products: map<ProductId, ProductState>, order: OrderId, lines: seq<OrderLine>, k: nat, n: nat,
      p: ProductId)
    requires Consistent(lines) && k < |lines| && k == FirstShort(products, order, lines) && p in products
    requires n <= |Reservable(products, lines[..k])|
    ensures var reserved := Reservable(products, lines[..k]);
            var y := Each(Each(products, order, lines[..k], Reserving), order, reserved[..n], Releasing)[p];
            && Along(products[p], y, order, LineFor(lines[..k], p), true)
            && (n == |reserved| ==> y == Compensated(products, order, lines[..k])[p])
  {
    var reserved := Reservable(products, lines[..k]);
    LineForReservable(products, lines[..k], p);
    ReservableConsistent(products, lines[..k]);
    LineForIs(lines[..k], p);
    var quantity := LineFor(lines[..k], p);
    if LineFor(reserved[..n], p).Some? {
      LineForPrefix(reserved, n, |reserved|, p);
    }
    assert reserved[..|reserved|] == reserved;
    if quantity.Some? {
      var j :| 0 <= j < k && lines[j] == OrderLine(p, quantity.value);
      assert !IsShort(products, order, lines[j]);
      ReservedThenReleased(products[p], order, quantity.value);
    }
  }

  lemma ReservedThenReleased(x: ProductState, order: OrderId, quantity: nat)
    requires Handled(x, Reserve(order, quantity)) != InsufficientStock
    ensures quantity > 0 ==> After(After(x, Reserve(order, quantity)), Release(order, quantity)) == Cleared(x, order)
    ensures quantity == 0 ==> After(x, Reserve(order, quantity)) == x
  {
    if order !in x.reservations {
      assert x.reservations[order := quantity] - {order} == x.reservations - {order};
    }
  }

  lemma CancelEffect(shop: Shop, order: OrderId)
    ensures Execute(shop, Cancel(order)).0 == shop.(orders := Cancelling(shop.orders, order))
  {
  }

  lemma EachKeepsPrices(products: map<ProductId, ProductState>, order: OrderId, lines: seq<OrderLine>)
    ensures Price(Each(products, order, lines, Reserving), lines) == Price(products, lines)
  {
    SamePrice(products, Each(products, order, lines, Reserving), lines);
  }

  lemma {:induction false} PriceMissing(products: map<ProductId, ProductState>, lines: seq<OrderLine>, n: nat)
    requires n <= |lines| && Price(products, lines[..n]).None?
    ensures Price(products, lines).None?
  {
    if n < |lines| {
      assert lines[..|lines| - 1][..n] == lines[..n];
      PriceMissing(products, lines[..|lines| - 1], n);
    } else {
      assert lines[..n] == lines;
    }
  }

  lemma EachPartWay(before: map<ProductId, ProductState>, order: OrderId, lines: seq<OrderLine>, n: nat, verb: Verb)
    requires Consistent(lines) && n <= |lines|
    ensures PartWay(before, Each(before, order, lines[..n], verb), order, lines, verb)
  {
    assert lines[..|lines|] == lines;
    forall p | p in before && LineFor(lines[..n], p).Some? ensures LineFor(lines, p) == LineFor(lines[..n], p) {
      LineForPrefix(lines, n, |lines|, p);
    }
  }
}
