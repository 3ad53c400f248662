/** The `InventoryAvailability` read model: stock on hand and reserved, per product. */
module Inventory {
  import opened Products

  datatype StockLevel = StockLevel(name: string, onHand: nat, reserved: nat)

  /** A product event with the stream it belongs to. */
  datatype Record = Record(product: ProductId, event: ProductEvent)

  function LevelOf(products: map<ProductId, StockLevel>, product: ProductId): StockLevel {
    if product in products then products[product] else StockLevel("", 0, 0)
  }

  function LevelAfter(level: StockLevel, e: ProductEvent): StockLevel {
    match e
    case Listed(name, stock, _) => StockLevel(name, stock, 0)
    case Replenished(q) => level.(onHand := level.onHand + q)
    case Reserved(_, q) => level.(reserved := level.reserved + q)
    case Released(_, q) => level.(reserved := Monus(level.reserved, q))
    case Committed(_, q) => level.(reserved := Monus(level.reserved, q), onHand := Monus(level.onHand, q))
  }

  /** The read model after a log of product events. */
  function View(log: seq<Record>): map<ProductId, StockLevel> {
    if log == [] then map[]
    else
      var products, r := View(log[..|log| - 1]), log[|log| - 1];
      products[r.product := LevelAfter(LevelOf(products, r.product), r.event)]
  }

  lemma ViewAppend(log: seq<Record>, r: Record)
    ensures View(log + [r]) == View(log)[r.product := LevelAfter(LevelOf(View(log), r.product), r.event)]
  {
    assert (log + [r])[..|log + [r]| - 1] == log;
  }

  /** The name a product was last listed under. */
  function ListedName(log: seq<Record>, product: ProductId): string {
    if log == [] then ""
    else
      var r := log[|log| - 1];
      if r.product == product && r.event.Listed? then r.event.name else ListedName(log[..|log| - 1], product)
  }

  /** A product has a row exactly when it has an event, under its listed name; other products' events leave it alone. */
  lemma {:induction false} ViewRows(log: seq<Record>, product: ProductId)
    ensures product in View(log) <==> exists i :: 0 <= i < |log| && log[i].product == product
    ensures product in View(log) ==> View(log)[product].name == ListedName(log, product)
  {
    if log != [] {
      var front := log[..|log| - 1];
      ViewRows(front, product);
      assert forall i :: 0 <= i < |front| ==> front[i] == log[i];
      if product !in View(front) {
        NoRowNoName(front, product);
      }
    }
  }

  lemma {:induction false} NoRowNoName(log: seq<Record>, product: ProductId)
    requires forall i :: 0 <= i < |log| ==> log[i].product != product
    ensures ListedName(log, product) == ""
  {
    if log != [] {
      NoRowNoName(log[..|log| - 1], product);
    }
  }

  class InventoryAvailability {
    var products: map<ProductId, StockLevel>
    ghost var seen: seq<Record>

    ghost predicate Valid()
      reads this
    {
      products == View(seen)
    }

    constructor ()
      ensures Valid() && seen == []
    {
      products, seen := map[], [];
    }

    /** Insert the row on listing; otherwise take the row, or a default one, and adjust its counters. */
    method ApplyProjection(product: ProductId, e: ProductEvent)
      requires Valid()
      modifies this
      ensures Valid() && seen == old(seen) + [Record(product, e)]
    {
      hide View;
      ViewAppend(seen, Record(product, e));
      if e.Listed? {
        products := products[product := StockLevel(e.name, e.initialStock, 0)];
      } else {
        var level := if product in products then products[product] else StockLevel("", 0, 0);
        match e {
          case Replenished(q) => level := level.(onHand := level.onHand + q);
          case Reserved(_, q) => level := level.(reserved := level.reserved + q);
          case Released(_, q) => level := level.(reserved := Monus(level.reserved, q));
          case Committed(_, q) =>
            level := level.(reserved := Monus(level.reserved, q));
            level := level.(onHand := Monus(level.onHand, q));
        }
        products := products[product := level];
      }
      seen := seen + [Record(product, e)];
    }
  }

  /** The read model reports the aggregate's own stock and the sum of its reservations. */
  ghost predicate Agrees(level: StockLevel, p: ProductState) {
    level.onHand == p.onHand && level.reserved == Total(p.reservations)
  }

  /**
   Releasing or committing a reservation keeps the read model in agreement if and only if
   the event takes the quantity reserved, or overshoots the only reservation there is.
   */
  lemma AgreementExactlyWhen(level: StockLevel, p: ProductState, e: ProductEvent)
    requires Agrees(level, p) && (e.Released? || e.Committed?) && e.order in p.reservations
    ensures var held, total := p.reservations[e.order], Total(p.reservations);
            Agrees(LevelAfter(level, e), Applied(p, e)) <==> e.quantity == held || (held == total && e.quantity > held)
  {
    TotalRemove(p.reservations, e.order);
  }

  /** Every other event a command can produce keeps it as well. */
  lemma AgreementKept(level: StockLevel, p: ProductState, cmd: ProductCommand)
    requires Agrees(level, p)
    requires (cmd.Release? || cmd.CommitReservation?) && cmd.order in p.reservations ==>
               cmd.quantity == p.reservations[cmd.order]
    requires Handled(p, cmd).Accepted? && Handled(p, cmd).events != []
    ensures Agrees(LevelAfter(level, Handled(p, cmd).events[0]), After(p, cmd))
  {
    match cmd
    case Reserve(o, q) => TotalInsert(p.reservations, o, q);
    case Replenish(_) =>
    case _ => AgreementExactlyWhen(level, p, Handled(p, cmd).events[0]);
  }
}
