/**
 The storefront: products, orders and payments, each its own aggregate, changed by one
 command at a time. Commands of customers and of the coordinator interleave freely.
 */
module Shops {
  import opened Options
  import opened Products
  import opened Inventory

  datatype OrderLine = OrderLine(product: ProductId, quantity: nat)

  datatype OrderStatus = Placed | Confirmed | Cancelled | Shipped

  datatype Order = Order(status: OrderStatus, lines: seq<OrderLine>)

  datatype PaymentStatus = Authorized | Captured | Refunded | Failed

  datatype Payment = Payment(status: PaymentStatus, amount: nat)

  /** A payment is keyed by its order. `log` lists the product events committed so far. */
  datatype Shop = Shop(
    products: map<ProductId, ProductState>, orders: map<OrderId, Order>, payments: map<OrderId, Payment>,
    log: seq<Record>)

  datatype Command =
    | ListProduct(product: ProductId, name: string, stock: nat, price: nat)
    | Stock(product: ProductId, stockCommand: ProductCommand)
    | PlaceOrder(order: OrderId, lines: seq<OrderLine>)
    | Confirm(order: OrderId)
    | Cancel(order: OrderId)
    | Ship(order: OrderId)
    | Authorize(order: OrderId, amount: nat)
    | Capture(order: OrderId)
    | Refund(order: OrderId)
    | Fail(order: OrderId)

  /** `Refused` covers every rejection a caller may treat as benign; `Short` is insufficient stock. */
  datatype Reply = Done | Short | Refused

  const EMPTY := Shop(map[], map[], map[], [])

  function StockReply(shop: Shop, product: ProductId, cmd: ProductCommand): Reply {
    if product !in shop.products then Refused
    else
      match Handled(shop.products[product], cmd)
      case Accepted(_) => Done
      case InsufficientStock => Short
      case NonPositiveQuantity => Refused
  }

  function StockEffect(shop: Shop, product: ProductId, cmd: ProductCommand): Shop {
    if product !in shop.products then shop
    else
      var r := Handled(shop.products[product], cmd);
      if r.Accepted? && r.events != [] then
        shop.(products := shop.products[product := After(shop.products[product], cmd)],
              log := shop.log + [Record(product, r.events[0])])
      else shop
  }

  /** Move an order from one of the given states, if it is in one. */
  function OrderTo(shop: Shop, order: OrderId, from: set<OrderStatus>, to: OrderStatus): (Shop, Reply) {
    if order in shop.orders && shop.orders[order].status in from
    then (shop.(orders := shop.orders[order := shop.orders[order].(status := to)]), Done)
    else (shop, Refused)
  }

  function PaymentTo(shop: Shop, order: OrderId, from: PaymentStatus, to: PaymentStatus): (Shop, Reply) {
    if order in shop.payments && shop.payments[order].status == from
    then (shop.(payments := shop.payments[order := shop.payments[order].(status := to)]), Done)
    else (shop, Refused)
  }

  /** The shop after one command, and the reply to it. A rejected command changes nothing. */
  function Execute(shop: Shop, cmd: Command): (Shop, Reply) {
    match cmd
    case ListProduct(product, name, stock, price) =>
      if product in shop.products then (shop, Refused)
      else (shop.(products := shop.products[product := Created(stock, price)],
                  log := shop.log + [Record(product, Listed(name, stock, price))]), Done)
    case Stock(product, stockCommand) =>
      (StockEffect(shop, product, stockCommand), StockReply(shop, product, stockCommand))
    case PlaceOrder(order, lines) =>
      if lines == [] || order in shop.orders then (shop, Refused)
      else (shop.(orders := shop.orders[order := Order(Placed, lines)]), Done)
    case Confirm(order) => OrderTo(shop, order, {Placed}, Confirmed)
    case Cancel(order) => OrderTo(shop, order, {Placed, Confirmed}, Cancelled)
    case Ship(order) => OrderTo(shop, order, {Confirmed}, Shipped)
    case Authorize(order, amount) =>
      if amount == 0 || order in shop.payments then (shop, Refused)
      else (shop.(payments := shop.payments[order := Payment(Authorized, amount)]), Done)
    case Capture(order) => PaymentTo(shop, order, Authorized, Captured)
    case Refund(order) => PaymentTo(shop, order, Captured, Refunded)
    case Fail(order) => PaymentTo(shop, order, Authorized, Failed)
  }

  /** An order may name a product more than once, but always with the same quantity. */
  predicate Consistent(lines: seq<OrderLine>) {
    forall i, j :: 0 <= i < j < |lines| && lines[i].product == lines[j].product ==>
                     lines[i].quantity == lines[j].quantity
  }

  /** This product and quantity are a line of that order. */
  predicate IsLine(shop: Shop, order: OrderId, product: ProductId, quantity: nat) {
    order in shop.orders && OrderLine(product, quantity) in shop.orders[order].lines
  }

  /** Stock is held only for the lines of existing orders. */
  predicate Issuable(shop: Shop, cmd: Command) {
    cmd.Stock? ==>
      cmd.stockCommand.Replenish? || IsLine(shop, cmd.stockCommand.order, cmd.product, cmd.stockCommand.quantity)
  }

  /** And orders ask for one quantity of a product. */
  predicate Permitted(shop: Shop, cmd: Command) {
    Issuable(shop, cmd) && (cmd.PlaceOrder? ==> Consistent(cmd.lines))
  }

  /** Every reservation is that order's line for the product, and all of them fit the shelf. */
  ghost predicate NoOversell(shop: Shop) {
    forall p :: p in shop.products ==> HeldRight(shop, p, shop.products[p])
  }

  ghost predicate HeldRight(shop: Shop, product: ProductId, p: ProductState) {
    Covered(p) && forall o :: o in p.reservations ==> IsLine(shop, o, product, p.reservations[o])
  }

  /** The read model reports every product as it is. */
  ghost predicate ViewAgrees(shop: Shop) {
    forall p :: p in shop.products ==> p in View(shop.log) && Agrees(View(shop.log)[p], shop.products[p])
  }

  ghost predicate Sound(shop: Shop) {
    && (forall o :: o in shop.orders ==> Consistent(shop.orders[o].lines))
    && NoOversell(shop) && ViewAgrees(shop)
  }

  /** A consistent order has one quantity per product. */
  lemma LineUnique(shop: Shop, order: OrderId, product: ProductId, a: nat, b: nat)
    requires IsLine(shop, order, product, a) && IsLine(shop, order, product, b) && Consistent(shop.orders[order].lines)
    ensures a == b
  {
    var lines := shop.orders[order].lines;
    var i :| 0 <= i < |lines| && lines[i] == OrderLine(product, a);
    var j :| 0 <= j < |lines| && lines[j] == OrderLine(product, b);
  }

  lemma StockSound(shop: Shop, product: ProductId, cmd: ProductCommand)
    requires Sound(shop) && Permitted(shop, Stock(product, cmd))
    ensures Sound(StockEffect(shop, product, cmd))
  {
    var next := StockEffect(shop, product, cmd);
    if next != shop {
      var p := shop.products[product];
      assert HeldRight(shop, product, p);
      if !cmd.Replenish? && cmd.order in p.reservations {
        LineUnique(shop, cmd.order, product, cmd.quantity, p.reservations[cmd.order]);
      }
      AfterCovered(p, cmd);
      assert HeldRight(next, product, After(p, cmd));
      AgreementKept(View(shop.log)[product], p, cmd);
      ViewAppend(shop.log, Record(product, Handled(p, cmd).events[0]));
      forall q | q in next.products ensures HeldRight(next, q, next.products[q]) {
        assert q != product ==> HeldRight(shop, q, shop.products[q]);
      }
    }
  }

  /** Moving orders and payments along touches neither stock nor order lines. */
  lemma PapersSound(shop: Shop, next: Shop)
    requires Sound(shop) && next == shop.(orders := next.orders, payments := next.payments)
    requires forall o :: o in shop.orders ==> o in next.orders && next.orders[o].lines == shop.orders[o].lines
    requires forall o :: o in next.orders ==> Consistent(next.orders[o].lines)
    ensures Sound(next)
  {
    forall p | p in next.products ensures HeldRight(next, p, next.products[p]) {
      assert HeldRight(shop, p, shop.products[p]);
    }
  }

  lemma ListSound(shop: Shop, product: ProductId, name: string, stock: nat, price: nat)
    requires Sound(shop)
    ensures Sound(Execute(shop, ListProduct(product, name, stock, price)).0)
  {
    var next := Execute(shop, ListProduct(product, name, stock, price)).0;
    ViewAppend(shop.log, Record(product, Listed(name, stock, price)));
    forall p | p in next.products ensures HeldRight(next, p, next.products[p]) {
      assert p in shop.products ==> HeldRight(shop, p, shop.products[p]);
    }
  }

  lemma {:induction false} ExecuteSound(shop: Shop, cmd: Command)
    requires Sound(shop) && Permitted(shop, cmd)
    ensures Sound(Execute(shop, cmd).0)
  {
    hide StockEffect, StockReply, NoOversell, ViewAgrees;
    var next := Execute(shop, cmd).0;
    match cmd
    case ListProduct(product, name, stock, price) => ListSound(shop, product, name, stock, price);
    case Stock(product, stockCommand) => StockSound(shop, product, stockCommand);
    case _ => PapersSound(shop, next);
  }

  /** Orders are never removed, and their lines never change. */
  ghost predicate OrdersStay(before: Shop, after: Shop) {
    forall o :: o in before.orders ==> o in after.orders && after.orders[o].lines == before.orders[o].lines
  }

  /** So what is permitted stays permitted. */
  lemma PermittedStays(before: Shop, after: Shop, cmd: Command)
    requires OrdersStay(before, after) && Permitted(before, cmd)
    ensures Permitted(after, cmd)
  {
  }

  lemma ExecuteKeepsOrders(before: Shop, shop: Shop, cmd: Command)
    requires OrdersStay(before, shop)
    ensures OrdersStay(before, Execute(shop, cmd).0)
  {
    hide StockReply, Handled, After;
  }

  /** Commands run one by one; those that are not permitted are not issued. */
  function Run(shop: Shop, cmds: seq<Command>): Shop {
    if cmds == [] then shop
    else
      var before := Run(shop, cmds[..|cmds| - 1]);
      if Permitted(before, cmds[|cmds| - 1]) then Execute(before, cmds[|cmds| - 1]).0 else before
  }

  lemma {:induction false} RunSound(shop: Shop, cmds: seq<Command>)
    requires Sound(shop)
    ensures Sound(Run(shop, cmds)) && OrdersStay(shop, Run(shop, cmds))
  {
    hide Sound, Execute, Permitted;
    if cmds != [] {
      RunSound(shop, cmds[..|cmds| - 1]);
      var before := Run(shop, cmds[..|cmds| - 1]);
      if Permitted(before, cmds[|cmds| - 1]) {
        ExecuteSound(before, cmds[|cmds| - 1]);
        ExecuteKeepsOrders(shop, before, cmds[|cmds| - 1]);
      }
    }
  }

  /**
   No oversell, in every reachable state and for any interleaving of commands: each
   reservation equals its order line, reservations fit the stock on hand, and the read
   model reports exactly the aggregate's stock and reserved sum.
   */
  lemma {:induction false} EveryRunIsSound(cmds: seq<Command>)
    ensures var shop := Run(EMPTY, cmds);
            forall p :: p in shop.products ==>
              && (forall o :: o in shop.products[p].reservations ==>
                   IsLine(shop, o, p, shop.products[p].reservations[o]))
              && Total(shop.products[p].reservations) <= shop.products[p].onHand
              && p in View(shop.log) && Agrees(View(shop.log)[p], shop.products[p])
    ensures Sound(Run(EMPTY, cmds))
  {
    RunSound(EMPTY, cmds);
    var shop := Run(EMPTY, cmds);
    assert forall p :: p in shop.products ==> HeldRight(shop, p, shop.products[p]);
  }

  ghost predicate OrderMoves(a: OrderStatus, b: OrderStatus) {
    a == b || (a.Placed? && (b.Confirmed? || b.Cancelled?)) || (a.Confirmed? && (b.Cancelled? || b.Shipped?))
  }

  ghost predicate PaymentMoves(a: PaymentStatus, b: PaymentStatus) {
    a == b || (a.Authorized? && (b.Captured? || b.Failed?)) || (a.Captured? && b.Refunded?)
  }

  /** Orders and payments move only along their life cycles, and a payment keeps its amount. */
  lemma LifeCycles(shop: Shop, cmd: Command)
    ensures var next := Execute(shop, cmd).0;
            && (forall o :: o in shop.orders ==>
                 o in next.orders && OrderMoves(shop.orders[o].status, next.orders[o].status))
            && (forall o :: o in shop.payments ==>
                  && o in next.payments && PaymentMoves(shop.payments[o].status, next.payments[o].status)
                  && next.payments[o].amount == shop.payments[o].amount)
            && (forall o :: o in next.orders && o !in shop.orders ==> next.orders[o].status == Placed)
            && (forall o :: o in next.payments && o !in shop.payments ==>
                  next.payments[o].status == Authorized && next.payments[o].amount > 0)
  {
    hide Handled, After;
  }

  /** The status of an order, if there is one. */
  function StatusOf(shop: Shop, order: OrderId): Option<OrderStatus> {
    if order in shop.orders then Some(shop.orders[order].status) else None
  }

  function PaymentOf(shop: Shop, order: OrderId): Option<Payment> {
    if order in shop.payments then Some(shop.payments[order]) else None
  }

  /** Which order commands are accepted, and what they do: no other order, payment or product changes. */
  lemma OrderCommands(shop: Shop, order: OrderId, lines: seq<OrderLine>)
    ensures var (next, reply) := Execute(shop, PlaceOrder(order, lines));
            && (reply.Done? <==> StatusOf(shop, order).None? && lines != [])
            && next == shop.(orders := if reply.Done? then shop.orders[order := Order(Placed, lines)] else shop.orders)
    ensures OrderMoved(shop, Confirm(order), order, {Placed}, Confirmed)
    ensures OrderMoved(shop, Cancel(order), order, {Placed, Confirmed}, Cancelled)
    ensures OrderMoved(shop, Ship(order), order, {Confirmed}, Shipped)
  {
  }

  /** Accepted exactly from these statuses; then the order, its lines kept, has the new one. */
  ghost predicate OrderMoved(shop: Shop, cmd: Command, order: OrderId, from: set<OrderStatus>, to: OrderStatus) {
    var (next, reply) := Execute(shop, cmd);
    && next.products == shop.products && next.payments == shop.payments && next.log == shop.log
    && next.orders - {order} == shop.orders - {order}
    && if StatusOf(shop, order).Some? && StatusOf(shop, order).value in from then
         reply == Done && order in next.orders && next.orders[order] == Order(to, shop.orders[order].lines)
       else reply == Refused && next == shop
  }

  /** Which payment commands are accepted, and what they do. */
  lemma PaymentCommands(shop: Shop, order: OrderId, amount: nat)
    ensures var (next, reply) := Execute(shop, Authorize(order, amount));
            && (reply.Done? <==> PaymentOf(shop, order).None? && amount > 0)
            && next == shop.(payments := if reply.Done? then shop.payments[order := Payment(Authorized, amount)]
                                         else shop.payments)
    ensures PaymentMoved(shop, Capture(order), order, Authorized, Captured)
    ensures PaymentMoved(shop, Refund(order), order, Captured, Refunded)
    ensures PaymentMoved(shop, Fail(order), order, Authorized, Failed)
  {
  }

  ghost predicate PaymentMoved(shop: Shop, cmd: Command, order: OrderId, from: PaymentStatus, to: PaymentStatus) {
    var (next, reply) := Execute(shop, cmd);
    && next.products == shop.products && next.orders == shop.orders && next.log == shop.log
    && next.payments - {order} == shop.payments - {order}
    && if PaymentOf(shop, order).Some? && PaymentOf(shop, order).value.status == from then
         reply == Done && PaymentOf(next, order) == Some(Payment(to, shop.payments[order].amount))
       else reply == Refused && next == shop
  }

  /** A listed product starts with its stock and price and nothing reserved; listing again is refused. */
  lemma ListCommand(shop: Shop, product: ProductId, name: string, stock: nat, price: nat)
    ensures var (next, reply) := Execute(shop, ListProduct(product, name, stock, price));
            if product in shop.products then reply == Refused && next == shop
            else
              && reply == Done && next.orders == shop.orders && next.payments == shop.payments
              && next.products == shop.products[product := ProductState(price, stock, map[])]
              && next.log == shop.log + [Record(product, Listed(name, stock, price))]
  {
  }

  /** A stock command changes its own product alone, and is logged exactly when it changes it. */
  lemma StockCommandReply(shop: Shop, product: ProductId, cmd: ProductCommand)
    ensures var (next, reply) := Execute(shop, Stock(product, cmd));
            && next.orders == shop.orders && next.payments == shop.payments
            && next.products - {product} == shop.products - {product}
            && (reply.Short? <==>
                  && product in shop.products && cmd.Reserve? && cmd.quantity > 0
                  && cmd.order !in shop.products[product].reservations
                  && Available(shop.products[product]) < cmd.quantity)
            && (reply.Refused? <==>
                  product !in shop.products || ((cmd.Replenish? || cmd.Reserve?) && cmd.quantity == 0))
            && (reply.Done? ==>
                  product in next.products && next.products[product] == After(shop.products[product], cmd))
            && (!reply.Done? ==> next == shop)
  {
    if product in shop.products {
      RejectedExactlyWhen(shop.products[product], cmd);
    }
  }

  /** Shipped and cancelled orders, refunded and failed payments stay as they are in every continuation. */
  lemma {:induction false} SettledForever(shop: Shop, cmds: seq<Command>)
    ensures var later := Run(shop, cmds);
            && (forall o :: o in shop.orders && shop.orders[o].status in {Shipped, Cancelled} ==>
                  o in later.orders && later.orders[o].status == shop.orders[o].status)
            && (forall o :: o in shop.payments && shop.payments[o].status in {Refunded, Failed} ==>
                  o in later.payments && later.payments[o] == shop.payments[o])
  {
    hide Execute, Permitted;
    if cmds != [] {
      SettledForever(shop, cmds[..|cmds| - 1]);
      LifeCycles(Run(shop, cmds[..|cmds| - 1]), cmds[|cmds| - 1]);
    }
  }
}
