/**
 What the coordinator's reactions amount to when nothing else happens: one function of the
 shop per reaction, and the states a reaction can leave behind if it is cut short. From
 any of those states, delivering the event again ends where one delivery ends.
 */
module Reactions {
  import opened Options
  import opened Products
  import opened Shops

  datatype Verb = Reserving | Releasing | Committing

  function CommandFor(verb: Verb, order: OrderId, quantity: nat): ProductCommand {
    match verb
    case Reserving => Reserve(order, quantity)
    case Releasing => Release(order, quantity)
    case Committing => CommitReservation(order, quantity)
  }

  /** The quantity an order asks of a product. */
  function LineFor(lines: seq<OrderLine>, product: ProductId): Option<nat> {
    if lines == [] then None
    else if lines[|lines| - 1].product == product then Some(lines[|lines| - 1].quantity)
    else LineFor(lines[..|lines| - 1], product)
  }

  /** One command for every product the lines name. */
  function Each(products: map<ProductId, ProductState>, order: OrderId, lines: seq<OrderLine>,
      verb: Verb): map<ProductId, ProductState> {
    map p | p in products ::
      if LineFor(lines, p).Some? then After(products[p], CommandFor(verb, order, LineFor(lines, p).value))
      else products[p]
  }

  /** Reserved, then released again. A line of quantity 0 is refused and so never released. */
  function Compensated(products: map<ProductId, ProductState>, order: OrderId, lines: seq<OrderLine>): map<ProductId,
      ProductState> {
    map p | p in products ::
      if LineFor(lines, p).Some? && LineFor(lines, p).value > 0 then Cleared(products[p], order) else products[p]
  }

  function Cleared(p: ProductState, order: OrderId): ProductState {
    p.(reservations := p.reservations - {order})
  }

  predicate IsShort(products: map<ProductId, ProductState>, order: OrderId, line: OrderLine) {
    line.product in products && Handled(products[line.product], Reserve(order, line.quantity)) == InsufficientStock
  }

  /** The first line that cannot be reserved, or the number of lines. */
  function FirstShort(products: map<ProductId, ProductState>, order: OrderId, lines: seq<OrderLine>): (k: nat)
    ensures k <= |lines|
    ensures forall i :: 0 <= i < k ==> !IsShort(products, order, lines[i])
    ensures k < |lines| ==> IsShort(products, order, lines[k])
  {
    if lines == [] || IsShort(products, order, lines[0]) then 0 else 1 + FirstShort(products, order, lines[1..])
  }

  /** The order total at catalogue prices; `None` when a product is missing. */
  function Price(products: map<ProductId, ProductState>, lines: seq<OrderLine>): Option<nat> {
    if lines == [] then Some(0)
    else
      var front, line := Price(products, lines[..|lines| - 1]), lines[|lines| - 1];
      if front.None? || line.product !in products then None
      else Some(front.value + products[line.product].unitPrice * line.quantity)
  }

  /** What one line costs: its quantity at its own product's price. */
  lemma PriceOfLine(products: map<ProductId, ProductState>, line: OrderLine)
    ensures Price(products, [line]) ==
            if line.product in products then Some(products[line.product].unitPrice * line.quantity) else None
  {
    assert [line][..0] == [];
  }

  /** The price of a list is the sum over its parts, and missing exactly when that of a part is. */
  lemma {:induction false} PriceConcat(products: map<ProductId, ProductState>, a: seq<OrderLine>, b: seq<OrderLine>)
    ensures Price(products, a + b).Some? <==> Price(products, a).Some? && Price(products, b).Some?
    ensures Price(products, a + b).Some? ==>
              Price(products, a + b).value == Price(products, a).value + Price(products, b).value
  {
    if b == [] {
      assert a + b == a;
    } else {
      assert (a + b)[..|a + b| - 1] == a + b[..|b| - 1];
      PriceConcat(products, a, b[..|b| - 1]);
    }
  }

  lemma Without(a: seq<OrderLine>, b: seq<OrderLine>, i: nat)
    requires multiset(a) == multiset(b) && a != [] && i < |b| && b[i] == a[|a| - 1]
    ensures multiset(a[..|a| - 1]) == multiset(b[..i] + b[i + 1..])
  {
    var line := b[i];
    assert a == a[..|a| - 1] + [line];
    assert b == b[..i] + [line] + b[i + 1..];
    assert multiset(a[..|a| - 1]) == multiset(a) - multiset{line};
    assert multiset(b[..i] + b[i + 1..]) == multiset(b) - multiset{line};
  }

  /** So the total does not depend on the order of the lines. */
  lemma {:induction false} PriceAnyOrder(products: map<ProductId, ProductState>, a: seq<OrderLine>, b: seq<OrderLine>)
    requires multiset(a) == multiset(b)
    ensures Price(products, a) == Price(products, b)
  {
    if a == [] {
      assert |multiset(b)| == 0;
    } else {
      var line := a[|a| - 1];
      assert line in multiset(a);
      var i :| 0 <= i < |b| && b[i] == line;
      Without(a, b, i);
      PriceAnyOrder(products, a[..|a| - 1], b[..i] + b[i + 1..]);
      assert a == a[..|a| - 1] + [line] && b == b[..i] + ([line] + b[i + 1..]);
      PriceParts(products, a[..|a| - 1], line, b[..i], b[i + 1..]);
    }
  }

  lemma {:induction false} PriceParts(products: map<ProductId, ProductState>, front: seq<OrderLine>, line: OrderLine,
      before: seq<OrderLine>, after: seq<OrderLine>)
    requires Price(products, front) == Price(products, before + after)
    ensures Price(products, front + [line]) == Price(products, before + ([line] + after))
  {
    hide Price;
    PriceConcat(products, front, [line]);
    PriceConcat(products, before, [line] + after);
    PriceConcat(products, [line], after);
    PriceConcat(products, before, after);
  }

  function Cancelling(orders: map<OrderId, Order>, order: OrderId): map<OrderId, Order> {
    if order in orders && orders[order].status in {Placed, Confirmed} then
      orders[order := orders[order].(status := Cancelled)]
    else orders
  }

  /** Products, orders and payments; the log of events may well grow on redelivery. */
  ghost predicate SameState(a: Shop, b: Shop) {
    a.products == b.products && a.orders == b.orders && a.payments == b.payments
  }

  /** `OrderPlaced`: reserve every line and authorise the payment, or undo and cancel. */
  function AfterPlaced(shop: Shop, order: OrderId, lines: seq<OrderLine>): Shop {
    var k := FirstShort(shop.products, order, lines);
    if k < |lines| then
      shop.(products := Compensated(shop.products, order, lines[..k]), orders := Cancelling(shop.orders, order))
    else
      var price := Price(shop.products, lines);
      shop.(products := Each(shop.products, order, lines, Reserving),
            payments := if order in shop.payments || price.None? || price.value == 0 then shop.payments
                        else shop.payments[order := Payment(Authorized, price.value)])
  }

  /** `PaymentCaptured`: confirm a placed order and commit its reservations. */
  function AfterCaptured(shop: Shop, order: OrderId): Shop {
    if order !in shop.orders then shop
    else
      shop.(products := Each(shop.products, order, shop.orders[order].lines, Committing),
            orders := if shop.orders[order].status != Placed then shop.orders
                      else shop.orders[order := shop.orders[order].(status := Confirmed)])
  }

  /** `PaymentFailed`: release the reservations of an open order and cancel it. */
  function AfterFailed(shop: Shop, order: OrderId): Shop {
    if order !in shop.orders || shop.orders[order].status !in {Placed, Confirmed} then shop
    else
      shop.(products := Each(shop.products, order, shop.orders[order].lines, Releasing),
            orders := Cancelling(shop.orders, order))
  }

  /** Somewhere along `OrderPlaced`: each product untouched, reserved, or already cleared again. */
  ghost predicate UnderwayPlaced(shop: Shop, mid: Shop, order: OrderId, lines: seq<OrderLine>) {
    var k, end := FirstShort(shop.products, order, lines), AfterPlaced(shop, order, lines);
    && mid.products.Keys == shop.products.Keys
    && (forall p :: p in shop.products ==>
         Along(shop.products[p], mid.products[p], order, LineFor(lines[..k], p), k < |lines|))
    && (mid.orders == shop.orders || mid.orders == end.orders)
    && (mid.payments == shop.payments || mid.payments == end.payments)
  }

  ghost predicate Along(x: ProductState, y: ProductState, order: OrderId, quantity: Option<nat>, compensating: bool) {
    || y == x
    || (quantity.Some? && y == After(x, Reserve(order, quantity.value)))
    || (compensating && quantity.Some? && quantity.value > 0 && y == Cleared(x, order))
  }

  /** Somewhere along a loop that issues one idempotent command per line. */
  ghost predicate PartWay(before: map<ProductId, ProductState>, mid: map<ProductId, ProductState>, order: OrderId,
      lines: seq<OrderLine>, verb: Verb) {
    && mid.Keys == before.Keys
    && forall p :: p in before ==> mid[p] == before[p] || mid[p] == Each(before, order, lines, verb)[p]
  }

  ghost predicate UnderwayCaptured(shop: Shop, mid: Shop, order: OrderId) {
    && order in shop.orders
    && PartWay(shop.products, mid.products, order, shop.orders[order].lines, Committing)
    && (mid.orders == shop.orders || mid.orders == AfterCaptured(shop, order).orders)
    && mid.payments == shop.payments
  }

  /** The order is cancelled only once everything has been released. */
  ghost predicate UnderwayFailed(shop: Shop, mid: Shop, order: OrderId) {
    && order in shop.orders && shop.orders[order].status in {Placed, Confirmed}
    && (SameState(mid, AfterFailed(shop, order))
        || (PartWay(shop.products, mid.products, order, shop.orders[order].lines, Releasing)
            && mid.orders == shop.orders && mid.payments == shop.payments))
  }

  lemma {:induction false} LineForIs(lines: seq<OrderLine>, product: ProductId)
    ensures LineFor(lines, product).Some? ==> OrderLine(product, LineFor(lines, product).value) in lines
    ensures LineFor(lines, product).None? ==> forall i :: 0 <= i < |lines| ==> lines[i].product != product
  {
    if lines != [] {
      LineForIs(lines[..|lines| - 1], product);
    }
  }

  /** In a consistent order, any line for a product gives its quantity. */
  lemma LineForAt(lines: seq<OrderLine>, n: nat, i: nat)
    requires i < |lines| && n <= |lines| && Consistent(lines)
    ensures i < n ==> LineFor(lines[..n], lines[i].product) == Some(lines[i].quantity)
    ensures var q := LineFor(lines[..n], lines[i].product);
            q.Some? ==> q.value == lines[i].quantity && exists j :: 0 <= j < n && lines[j] == lines[i]
  {
    var product := lines[i].product;
    LineForIs(lines[..n], product);
    if LineFor(lines[..n], product).Some? {
      var j :| 0 <= j < n && lines[j] == OrderLine(product, LineFor(lines[..n], product).value);
      assert lines[j] == lines[i];
    }
  }

  /** One more line means one more command; on a product an earlier line has named, it changes nothing. */
  lemma EachStep(products: map<ProductId, ProductState>, order: OrderId, lines: seq<OrderLine>, i: nat, verb: Verb)
    requires i < |lines| && Consistent(lines)
    ensures var before, line := Each(products, order, lines[..i], verb), lines[i];
            var cmd := CommandFor(verb, order, line.quantity);
            && (line.product in products ==>
                  before[line.product] == products[line.product]
                    || before[line.product] == After(products[line.product], cmd))
            && Each(products, order, lines[..i + 1], verb) ==
               if line.product !in products then before else before[line.product := After(before[line.product], cmd)]
  {
    LineForAt(lines, i, i);
    if lines[i].product in products {
      AgainIsNothing(products[lines[i].product], CommandFor(verb, order, lines[i].quantity));
    }
    assert lines[..i + 1][..i] == lines[..i];
  }

  /** A line that could be reserved can be reserved from any state along the way, to the same end. */
  lemma AlongConverges(x: ProductState, y: ProductState, order: OrderId, quantity: nat, compensating: bool)
    requires Covered(x) && (order in x.reservations ==> x.reservations[order] == quantity)
    requires Handled(x, Reserve(order, quantity)) != InsufficientStock
    requires Along(x, y, order, Some(quantity), compensating)
    ensures Handled(y, Reserve(order, quantity)) != InsufficientStock
    ensures !compensating ==> After(y, Reserve(order, quantity)) == After(x, Reserve(order, quantity))
    ensures quantity > 0 ==> Cleared(y, order) == Cleared(x, order)
    ensures quantity == 0 ==> y == x
    ensures y.unitPrice == x.unitPrice
  {
    if order in x.reservations {
      TotalRemove(x.reservations, order);
    } else {
      assert x.reservations - {order} == x.reservations;
      assert x.reservations[order := quantity] - {order} == x.reservations;
    }
  }

  lemma LineHeldRight(shop: Shop, order: OrderId, product: ProductId, quantity: nat)
    requires Sound(shop) && product in shop.products && IsLine(shop, order, product, quantity)
    ensures Covered(shop.products[product])
    ensures order in shop.products[product].reservations ==> shop.products[product].reservations[order] == quantity
  {
    var p := shop.products[product];
    assert HeldRight(shop, product, p);
    if order in p.reservations {
      LineUnique(shop, order, product, p.reservations[order], quantity);
    }
  }

  /** A reaction for one order leaves every other order's reservations, and all prices, alone. */
  ghost predicate OthersUntouched(a: map<ProductId, ProductState>, b: map<ProductId, ProductState>, order: OrderId) {
    && a.Keys == b.Keys
    && forall p :: p in a ==>
                     a[p].unitPrice == b[p].unitPrice && a[p].reservations - {order} == b[p].reservations - {order}
  }

  ghost predicate SameAt(a: map<ProductId, ProductState>, b: map<ProductId, ProductState>, p: ProductId) {
    p in a && p in b && a[p] == b[p]
  }

  /** And products its lines do not name, and other orders and payments, are as they were. */
  ghost predicate ElsewhereUntouched(a: Shop, b: Shop, order: OrderId, lines: seq<OrderLine>) {
    && (forall p :: p in a.products && (forall l :: l in lines ==> l.product != p) ==>
          SameAt(b.products, a.products, p))
    && a.orders - {order} == b.orders - {order} && a.payments - {order} == b.payments - {order}
  }

  /** `OrderPlaced` is all or nothing: every line held and payment asked for, or no line and the order cancelled. */
  lemma {:induction false} PlacedAllOrNothing(shop: Shop, order: OrderId, lines: seq<OrderLine>, i: nat)
    requires Sound(shop) && order in shop.orders && lines == shop.orders[order].lines
    requires i < |lines| && lines[i].product in shop.products && lines[i].quantity > 0
    ensures var end, p, k := AfterPlaced(shop, order, lines), lines[i].product, FirstShort(shop.products, order, lines);
            && (k == |lines| ==>
                  order in end.products[p].reservations && end.products[p].reservations[order] == lines[i].quantity)
            && (i < k < |lines| ==> order !in end.products[p].reservations)
            && (k < |lines| && shop.orders[order].status in {Placed, Confirmed} ==>
                 end.orders[order].status == Cancelled)
            && end.products[p].onHand == shop.products[p].onHand
            && (k == |lines| ==> end.orders == shop.orders)
            && (k < |lines| ==> end.payments == shop.payments)
  {
    var k := FirstShort(shop.products, order, lines);
    assert lines[..|lines|] == lines && lines[i] in lines;
    LineForAt(lines, k, i);
    LineHeldRight(shop, order, lines[i].product, lines[i].quantity);
  }

  /** With every line held, payment is asked for once, for the total, if there is anything to pay. */
  lemma PlacedAsksPayment(shop: Shop, order: OrderId, lines: seq<OrderLine>)
    requires FirstShort(shop.products, order, lines) == |lines|
    ensures var end, price := AfterPlaced(shop, order, lines), Price(shop.products, lines);
            && (order !in shop.payments && price.Some? && price.value > 0 ==>
                  end.payments == shop.payments[order := Payment(Authorized, price.value)])
            && (order in shop.payments || price.None? || price.value == 0 ==> end.payments == shop.payments)
  {
  }

  /** `PaymentCaptured` takes what was reserved off the shelf, once. */
  lemma {:induction false} CapturedTakesStock(shop: Shop, order: OrderId, i: nat)
    requires Sound(shop) && order in shop.orders && i < |shop.orders[order].lines|
    requires shop.orders[order].lines[i].product in shop.products
    ensures var end, line := AfterCaptured(shop, order), shop.orders[order].lines[i];
            var held := order in shop.products[line.product].reservations;
            && order !in end.products[line.product].reservations
            && end.products[line.product].onHand + (if held then line.quantity else 0)
               == shop.products[line.product].onHand
            && end.orders[order].status ==
               (if shop.orders[order].status == Placed then Confirmed else shop.orders[order].status)
            && end.payments == shop.payments
  {
    var lines := shop.orders[order].lines;
    assert lines[..|lines|] == lines && lines[i] in lines;
    LineForAt(lines, |lines|, i);
    LineHeldRight(shop, order, lines[i].product, lines[i].quantity);
    if order in shop.products[lines[i].product].reservations {
      TotalRemove(shop.products[lines[i].product].reservations, order);
    }
  }

  /** `PaymentFailed` gives back what was reserved and cancels an open order. */
  lemma FailedGivesBack(shop: Shop, order: OrderId, i: nat)
    requires Sound(shop) && order in shop.orders && i < |shop.orders[order].lines|
    requires shop.orders[order].lines[i].product in shop.products && shop.orders[order].status in {Placed, Confirmed}
    ensures var end, p := AfterFailed(shop, order), shop.orders[order].lines[i].product;
            && order !in end.products[p].reservations && end.products[p].onHand == shop.products[p].onHand
            && end.orders[order].status == Cancelled && end.payments == shop.payments
  {
    var lines := shop.orders[order].lines;
    assert lines[..|lines|] == lines;
    LineForAt(lines, |lines|, i);
  }

  /** No reaction touches what other orders hold. */
  lemma {:induction false} ReactionsLeaveOthers(shop: Shop, order: OrderId, lines: seq<OrderLine>)
    ensures OthersUntouched(shop.products, AfterPlaced(shop, order, lines).products, order)
    ensures OthersUntouched(shop.products, AfterCaptured(shop, order).products, order)
    ensures OthersUntouched(shop.products, AfterFailed(shop, order).products, order)
    ensures ElsewhereUntouched(shop, AfterPlaced(shop, order, lines), order, lines)
    ensures order in shop.orders ==>
              ElsewhereUntouched(shop, AfterCaptured(shop, order), order, shop.orders[order].lines)
    ensures order in shop.orders ==>
              ElsewhereUntouched(shop, AfterFailed(shop, order), order, shop.orders[order].lines)
  {
    PlacedElsewhere(shop, order, lines);
    if order in shop.orders {
      SettledElsewhere(shop, order);
    }
    EachLeavesOthers(shop.products, order, lines, Reserving);
    if order in shop.orders {
      EachLeavesOthers(shop.products, order, shop.orders[order].lines, Committing);
      EachLeavesOthers(shop.products, order, shop.orders[order].lines, Releasing);
    }
  }

  lemma {:induction false} EachElsewhere(products: map<ProductId, ProductState>, order: OrderId, lines: seq<OrderLine>,
      verb: Verb, p: ProductId)
    requires p in products && forall l :: l in lines ==> l.product != p
    ensures SameAt(Each(products, order, lines, verb), products, p)
    ensures SameAt(Compensated(products, order, lines), products, p)
  {
    NotALine(lines, p);
  }

  lemma {:induction false} CancellingElsewhere(orders: map<OrderId, Order>, order: OrderId)
    ensures Cancelling(orders, order) - {order} == orders - {order}
  {
  }

  lemma {:induction false} PlacedElsewhere(shop: Shop, order: OrderId, lines: seq<OrderLine>)
    ensures ElsewhereUntouched(shop, AfterPlaced(shop, order, lines), order, lines)
  {
    hide Each, Compensated, Cancelling, FirstShort, Price;
    var k := FirstShort(shop.products, order, lines);
    CancellingElsewhere(shop.orders, order);
    forall p | p in shop.products && forall l :: l in lines ==> l.product != p
      ensures SameAt(Each(shop.products, order, lines, Reserving), shop.products, p)
      ensures SameAt(Compensated(shop.products, order, lines[..k]), shop.products, p)
    {
      EachElsewhere(shop.products, order, lines, Reserving, p);
      EachElsewhere(shop.products, order, lines[..k], Reserving, p);
    }
  }

  lemma {:induction false} SettledElsewhere(shop: Shop, order: OrderId)
    requires order in shop.orders
    ensures var lines := shop.orders[order].lines;
            && ElsewhereUntouched(shop, AfterCaptured(shop, order), order, lines)
            && ElsewhereUntouched(shop, AfterFailed(shop, order), order, lines)
  {
    hide Each, Cancelling;
    CancellingElsewhere(shop.orders, order);
    var lines := shop.orders[order].lines;
    forall p | p in shop.products && forall l :: l in lines ==> l.product != p
      ensures SameAt(Each(shop.products, order, lines, Committing), shop.products, p)
      ensures SameAt(Each(shop.products, order, lines, Releasing), shop.products, p)
    {
      EachElsewhere(shop.products, order, lines, Committing, p);
      EachElsewhere(shop.products, order, lines, Releasing, p);
    }
  }

  lemma {:induction false} NotALine(lines: seq<OrderLine>, p: ProductId)
    requires forall l :: l in lines ==> l.product != p
    ensures LineFor(lines, p).None?
  {
    if lines != [] {
      assert lines[|lines| - 1] in lines;
      NotALine(lines[..|lines| - 1], p);
    }
  }

  lemma EachLeavesOthers(products: map<ProductId, ProductState>, order: OrderId, lines: seq<OrderLine>, verb: Verb)
    ensures OthersUntouched(products, Each(products, order, lines, verb), order)
  {
    forall p | p in products
      ensures products[p].reservations - {order} == Each(products, order, lines, verb)[p].reservations - {order}
    {
      var quantity := LineFor(lines, p);
      if quantity.Some? && verb.Reserving? {
        assert products[p].reservations[order := quantity.value] - {order} == products[p].reservations - {order};
      }
    }
  }

  /** Any state along the way is short at the same line, or at none. */
  lemma SameShort(shop: Shop, mid: Shop, order: OrderId, lines: seq<OrderLine>)
    requires Sound(shop) && order in shop.orders && lines == shop.orders[order].lines
    requires UnderwayPlaced(shop, mid, order, lines)
    ensures FirstShort(mid.products, order, lines) == FirstShort(shop.products, order, lines)
  {
    var k := FirstShort(shop.products, order, lines);
    forall i | 0 <= i < k ensures !IsShort(mid.products, order, lines[i]) {
      var line := lines[i];
      if line.product in shop.products {
        LineForAt(lines, k, i);
        assert line in lines;
        LineHeldRight(shop, order, line.product, line.quantity);
        AlongConverges(shop.products[line.product], mid.products[line.product], order, line.quantity, k < |lines|);
      }
    }
    if k < |lines| {
      LineForAt(lines, k, k);
      assert lines[k].product in shop.products;
    }
  }

  /**
   `OrderPlaced` may be cut short anywhere and delivered again: the shop ends as one
   delivery would have left it, compensation included.
   */
  lemma {:induction false} PlacedConverges(shop: Shop, mid: Shop, order: OrderId, lines: seq<OrderLine>)
    requires Sound(shop) && order in shop.orders && lines == shop.orders[order].lines
    requires UnderwayPlaced(shop, mid, order, lines)
    ensures SameState(AfterPlaced(mid, order, lines), AfterPlaced(shop, order, lines))
  {
    hide Sound, Along, LineFor, After, Handled, IsShort;
    var k := FirstShort(shop.products, order, lines);
    SameShort(shop, mid, order, lines);
    forall p | p in shop.products
      ensures mid.products[p].unitPrice == shop.products[p].unitPrice
      ensures k < |lines| ==>
                Compensated(mid.products, order, lines[..k])[p] == Compensated(shop.products, order, lines[..k])[p]
      ensures k == |lines| ==>
                Each(mid.products, order, lines, Reserving)[p] == Each(shop.products, order, lines, Reserving)[p]
    {
      ProductConverges(shop, mid, order, lines, p);
    }
    if k < |lines| {
      assert Compensated(mid.products, order, lines[..k]) == Compensated(shop.products, order, lines[..k]);
    } else {
      assert Each(mid.products, order, lines, Reserving) == Each(shop.products, order, lines, Reserving);
      SamePrice(shop.products, mid.products, lines);
    }
  }

  lemma {:induction false} ProductConverges(shop: Shop, mid: Shop, order: OrderId, lines: seq<OrderLine>, p: ProductId)
    requires Sound(shop) && order in shop.orders && lines == shop.orders[order].lines && p in shop.products
    requires UnderwayPlaced(shop, mid, order, lines)
    ensures p in mid.products && mid.products[p].unitPrice == shop.products[p].unitPrice
    ensures var k := FirstShort(shop.products, order, lines);
            if k < |lines| then
              Compensated(mid.products, order, lines[..k])[p] == Compensated(shop.products, order, lines[..k])[p]
            else Each(mid.products, order, lines, Reserving)[p] == Each(shop.products, order, lines, Reserving)[p]
  {
    hide Sound;
    var k := FirstShort(shop.products, order, lines);
    assert lines[..|lines|] == lines;
    var quantity := LineFor(lines[..k], p);
    LineForIs(lines[..k], p);
    if quantity.Some? {
      var j :| 0 <= j < k && lines[j] == OrderLine(p, quantity.value);
      LineHeldRight(shop, order, p, quantity.value);
      AlongConverges(shop.products[p], mid.products[p], order, quantity.value, k < |lines|);
    }
  }

  lemma {:induction false} SamePrice(a: map<ProductId, ProductState>, b: map<ProductId, ProductState>,
      lines: seq<OrderLine>)
    requires a.Keys == b.Keys && forall p :: p in a ==> a[p].unitPrice == b[p].unitPrice
    ensures Price(a, lines) == Price(b, lines)
  {
    if lines != [] {
      SamePrice(a, b, lines[..|lines| - 1]);
      assert lines[|lines| - 1].product in a <==> lines[|lines| - 1].product in b;
    }
  }

  /** Delivering `OrderPlaced` twice is delivering it once. */
  lemma {:induction false} PlacedIdempotent(shop: Shop, order: OrderId, lines: seq<OrderLine>)
    requires Sound(shop) && order in shop.orders && lines == shop.orders[order].lines
    ensures var once := AfterPlaced(shop, order, lines); SameState(AfterPlaced(once, order, lines), once)
  {
    assert lines[..|lines|] == lines;
    PlacedConverges(shop, AfterPlaced(shop, order, lines), order, lines);
  }

  lemma CapturedConverges(shop: Shop, mid: Shop, order: OrderId)
    requires UnderwayCaptured(shop, mid, order)
    ensures SameState(AfterCaptured(mid, order), AfterCaptured(shop, order))
  {
    PartWayConverges(shop.products, mid.products, order, shop.orders[order].lines, Committing);
  }

  lemma PartWayConverges(before: map<ProductId, ProductState>, mid: map<ProductId, ProductState>, order: OrderId,
      lines: seq<OrderLine>, verb: Verb)
    requires PartWay(before, mid, order, lines, verb)
    ensures Each(mid, order, lines, verb) == Each(before, order, lines, verb)
  {
    forall p | p in before ensures Each(mid, order, lines, verb)[p] == Each(before, order, lines, verb)[p] {
      if LineFor(lines, p).Some? {
        AgainIsNothing(before[p], CommandFor(verb, order, LineFor(lines, p).value));
      }
    }
  }

  /** Delivering `PaymentCaptured` twice is delivering it once. */
  lemma CapturedIdempotent(shop: Shop, order: OrderId)
    ensures var once := AfterCaptured(shop, order); SameState(AfterCaptured(once, order), once)
  {
    if order in shop.orders {
      CapturedConverges(shop, AfterCaptured(shop, order), order);
    }
  }

  lemma FailedConverges(shop: Shop, mid: Shop, order: OrderId)
    requires UnderwayFailed(shop, mid, order)
    ensures SameState(AfterFailed(mid, order), AfterFailed(shop, order))
  {
    if mid.orders == shop.orders {
      PartWayConverges(shop.products, mid.products, order, shop.orders[order].lines, Releasing);
    }
  }

  /** Delivering `PaymentFailed` twice is delivering it once. */
  lemma FailedIdempotent(shop: Shop, order: OrderId)
    ensures var once := AfterFailed(shop, order); SameState(AfterFailed(once, order), once)
  {
  }

  lemma PartWayComposes(before: map<ProductId, ProductState>, mid: map<ProductId, ProductState>,
      last: map<ProductId, ProductState>, order: OrderId, lines: seq<OrderLine>, verb: Verb)
    requires PartWay(before, mid, order, lines, verb) && PartWay(mid, last, order, lines, verb)
    ensures PartWay(before, last, order, lines, verb)
  {
    PartWayConverges(before, mid, order, lines, verb);
  }

  /** Any number of interrupted deliveries of `PaymentCaptured` stay on the way. */
  lemma {:induction false} CapturedComposes(shop: Shop, mid: Shop, last: Shop, order: OrderId)
    requires UnderwayCaptured(shop, mid, order) && UnderwayCaptured(mid, last, order)
    ensures UnderwayCaptured(shop, last, order)
  {
    hide PartWay, Each;
    assert mid.orders[order].lines == shop.orders[order].lines;
    PartWayComposes(shop.products, mid.products, last.products, order, shop.orders[order].lines, Committing);
  }

  /** And so do those of `PaymentFailed`. */
  lemma {:induction false} FailedComposes(shop: Shop, mid: Shop, last: Shop, order: OrderId)
    requires UnderwayFailed(shop, mid, order) && UnderwayFailed(mid, last, order)
    ensures UnderwayFailed(shop, last, order)
  {
    hide PartWay, Each;
    assert mid.orders == shop.orders;
    FailedConverges(shop, mid, order);
    if mid.payments == shop.payments && last.orders == mid.orders {
      PartWayComposes(shop.products, mid.products, last.products, order, shop.orders[order].lines, Releasing);
    }
  }

  /** What lies along the way from a state along the way lies along the way. */
  lemma AlongComposes(x: ProductState, y: ProductState, z: ProductState, order: OrderId, quantity: nat,
      compensating: bool)
    requires order in x.reservations ==> x.reservations[order] == quantity
    requires Handled(x, Reserve(order, quantity)) != InsufficientStock
    requires Along(x, y, order, Some(quantity), compensating) && Along(y, z, order, Some(quantity), compensating)
    ensures Along(x, z, order, Some(quantity), compensating)
  {
    if order in x.reservations {
      assert (x.reservations - {order})[order := quantity] == x.reservations;
    } else {
      assert x.reservations - {order} == x.reservations;
      assert x.reservations[order := quantity] - {order} == x.reservations;
    }
  }

  lemma {:induction false} PlacedComposes(shop: Shop, mid: Shop, last: Shop, order: OrderId, lines: seq<OrderLine>)
    requires Sound(shop) && order in shop.orders && lines == shop.orders[order].lines
    requires UnderwayPlaced(shop, mid, order, lines) && UnderwayPlaced(mid, last, order, lines)
    ensures UnderwayPlaced(shop, last, order, lines)
  {
    var k := FirstShort(shop.products, order, lines);
    SameShort(shop, mid, order, lines);
    PlacedConverges(shop, mid, order, lines);
    forall p | p in shop.products
      ensures Along(shop.products[p], last.products[p], order, LineFor(lines[..k], p), k < |lines|)
    {
      var quantity := LineFor(lines[..k], p);
      LineForIs(lines[..k], p);
      if quantity.Some? {
        var j :| 0 <= j < k && lines[j] == OrderLine(p, quantity.value);
        LineHeldRight(shop, order, p, quantity.value);
        AlongComposes(shop.products[p], mid.products[p], last.products[p], order, quantity.value, k < |lines|);
      }
    }
  }

  /** A line given twice is charged twice but held once: two lines of one product share its reservation. */
  lemma {:induction false} RepeatedLineHeldOnce(shop: Shop, order: OrderId, product: ProductId, quantity: nat)
    requires product in shop.products && order !in shop.products[product].reservations && order !in shop.payments
    requires 0 < quantity <= Available(shop.products[product]) && shop.products[product].unitPrice > 0
    ensures var line := OrderLine(product, quantity); var end := AfterPlaced(shop, order, [line, line]);
            && end.products[product].reservations == shop.products[product].reservations[order := quantity]
            && order in end.payments
            && end.payments[order] == Payment(Authorized, 2 * (shop.products[product].unitPrice * quantity))
  {
    var line, unit := OrderLine(product, quantity), shop.products[product].unitPrice;
    var lines := [line, line];
    assert !IsShort(shop.products, order, line);
    assert lines[1..] == [line] && [line][1..] == [] && lines[..1] == [line] && [line][..0] == [];
    assert FirstShort(shop.products, order, [line]) == 1 && FirstShort(shop.products, order, lines) == 2;
    assert Price(shop.products, [line]) == Some(unit * quantity);
    assert Price(shop.products, lines) == Some(2 * (unit * quantity));
    assert unit * quantity > 0;
  }
}
