/** The storefront's `Product` aggregate: stock on hand and reservations per order. */
module Products {

  /** Identities are uuids, that is, numbers; a reservation is keyed by its order's. */
  type ProductId = nat
  type OrderId = nat

  datatype ProductState = ProductState(unitPrice: nat, onHand: nat, reservations: map<OrderId, nat>)

  datatype ProductEvent =
    | Listed(name: string, initialStock: nat, unitPrice: nat)
    | Replenished(quantity: nat)
    | Reserved(order: OrderId, quantity: nat)
    | Released(order: OrderId, quantity: nat)
    | Committed(order: OrderId, quantity: nat)

  datatype ProductCommand =
    | Replenish(quantity: nat)
    | Reserve(order: OrderId, quantity: nat)
    | Release(order: OrderId, quantity: nat)
    | CommitReservation(order: OrderId, quantity: nat)

  datatype Response = Accepted(events: seq<ProductEvent>) | InsufficientStock | NonPositiveQuantity

  function Monus(a: nat, b: nat): nat {
    if a < b then 0 else a - b
  }

  predicate IsLeast(k: OrderId, keys: set<OrderId>) {
    k in keys && forall j :: j in keys ==> k <= j
  }

  lemma {:induction false} LeastExists(keys: set<OrderId>)
    requires keys != {}
    ensures exists k :: IsLeast(k, keys)
  {
    var k :| k in keys;
    if keys == {k} {
      assert IsLeast(k, keys);
    } else {
      LeastExists(keys - {k});
      var j :| IsLeast(j, keys - {k});
      assert forall i :: i in keys ==> i == k || i in keys - {k};
      assert IsLeast(if k < j then k else j, keys);
    }
  }

  /** The sum of a map's values, taken in key order. */
  function Total(m: map<OrderId, nat>): nat {
    if m == map[] then 0
    else
      LeastExists(m.Keys);
      var k :| IsLeast(k, m.Keys);
      m[k] + Total(m - {k})
  }

  /** The order does not matter: any reservation can be taken out of the sum. */
  lemma {:induction false} TotalRemove(m: map<OrderId, nat>, k: OrderId)
    requires k in m
    ensures Total(m) == m[k] + Total(m - {k})
    decreases |m|
  {
    LeastExists(m.Keys);
    var first :| IsLeast(first, m.Keys);
    if first != k {
      TotalRemove(m - {first}, k);
      assert IsLeast(first, (m - {k}).Keys);
      assert m - {first} - {k} == m - {k} - {first};
    }
  }

  lemma TotalInsert(m: map<OrderId, nat>, k: OrderId, v: nat)
    requires k !in m
    ensures Total(m[k := v]) == Total(m) + v
  {
    TotalRemove(m[k := v], k);
    assert m[k := v] - {k} == m;
  }

  function Available(p: ProductState): nat {
    Monus(p.onHand, Total(p.reservations))
  }

  function Handled(p: ProductState, cmd: ProductCommand): Response {
    match cmd
    case Replenish(q) => if q == 0 then NonPositiveQuantity else Accepted([Replenished(q)])
    case Reserve(o, q) =>
      if q == 0 then NonPositiveQuantity
      else if o in p.reservations then Accepted([])
      else if Available(p) < q then InsufficientStock
      else Accepted([Reserved(o, q)])
    case Release(o, q) => Accepted(if o in p.reservations then [Released(o, q)] else [])
    case CommitReservation(o, q) => Accepted(if o in p.reservations then [Committed(o, q)] else [])
  }

  function Created(initialStock: nat, unitPrice: nat): ProductState {
    ProductState(unitPrice, initialStock, map[])
  }

  function Applied(p: ProductState, e: ProductEvent): ProductState {
    match e
    case Listed(_, stock, price) => p.(unitPrice := price, onHand := stock)
    case Replenished(q) => p.(onHand := p.onHand + q)
    case Reserved(o, q) => p.(reservations := p.reservations[o := q])
    case Released(o, _) => p.(reservations := p.reservations - {o})
    case Committed(o, q) =>
      if o in p.reservations then p.(reservations := p.reservations - {o}, onHand := Monus(p.onHand, q)) else p
  }

  /** Reservations never exceed what is on the shelf. */
  ghost predicate Covered(p: ProductState) {
    Total(p.reservations) <= p.onHand
  }

  /** The state after handling a command: its events applied, or nothing if rejected. */
  function After(p: ProductState, cmd: ProductCommand): ProductState {
    var r := Handled(p, cmd);
    if r.Accepted? && r.events != [] then Applied(p, r.events[0]) else p
  }

  /** The aggregate itself, updated in place event by event. */
  class Product {
    var unitPrice: nat
    var onHand: nat
    var reservations: map<OrderId, nat>

    function State(): ProductState
      reads this
    {
      ProductState(unitPrice, onHand, reservations)
    }

    constructor (initialStock: nat, unitPrice: nat)
      ensures State() == Created(initialStock, unitPrice)
    {
      this.unitPrice, this.onHand, this.reservations := unitPrice, initialStock, map[];
    }

    method Apply(e: ProductEvent)
      modifies this
      ensures State() == Applied(old(State()), e)
    {
      match e
      case Listed(_, stock, price) =>
        unitPrice, onHand := price, stock;
      case Replenished(q) =>
        onHand := onHand + q;
      case Reserved(o, q) =>
        reservations := reservations[o := q];
      case Released(o, _) =>
        reservations := reservations - {o};
      case Committed(o, q) =>
        if o in reservations {
          reservations := reservations - {o};
          onHand := Monus(onHand, q);
        }
    }

    /** Total reserved across all orders. */
    method ReservedTotal() returns (sum: nat)
      ensures sum == Total(reservations)
    {
      sum := 0;
      var rest := reservations;
      while rest != map[]
        invariant sum + Total(rest) == Total(reservations)
        decreases |rest|
      {
        LeastExists(rest.Keys);
        var k :| IsLeast(k, rest.Keys);
        sum := sum + rest[k];
        rest := rest - {k};
      }
    }

    method Handle(cmd: ProductCommand) returns (response: Response)
      ensures response == Handled(State(), cmd)
    {
      match cmd
      case Replenish(q) =>
        response := if q == 0 then NonPositiveQuantity else Accepted([Replenished(q)]);
      case Reserve(o, q) =>
        if q == 0 {
          return NonPositiveQuantity;
        }
        if o in reservations {
          return Accepted([]);
        }
        var reserved := ReservedTotal();
        response := if Monus(onHand, reserved) < q then InsufficientStock else Accepted([Reserved(o, q)]);
      case Release(o, q) =>
        response := Accepted(if o in reservations then [Released(o, q)] else []);
      case CommitReservation(o, q) =>
        response := Accepted(if o in reservations then [Committed(o, q)] else []);
    }

    /** Handle a command and apply what it yields. Reservations stay within the stock on hand. */
    method Execute(cmd: ProductCommand) returns (response: Response)
      requires Covered(State())
      requires cmd.CommitReservation? && cmd.order in reservations ==> cmd.quantity <= reservations[cmd.order]
      modifies this
      ensures Covered(State())
      ensures response == Handled(old(State()), cmd) && State() == After(old(State()), cmd)
      ensures !response.Accepted? ==> State() == old(State())
    {
      AfterCovered(State(), cmd);
      response := Handle(cmd);
      if response.Accepted? && response.events != [] {
        Apply(response.events[0]);
      }
    }
  }

  /** Every command keeps reservations covered, as long as a commit takes what was reserved. */
  lemma AfterCovered(p: ProductState, cmd: ProductCommand)
    requires Covered(p)
    requires cmd.CommitReservation? && cmd.order in p.reservations ==> cmd.quantity <= p.reservations[cmd.order]
    ensures Covered(After(p, cmd))
  {
    match cmd
    case Reserve(o, q) =>
      if o !in p.reservations {
        TotalInsert(p.reservations, o, q);
      }
    case Replenish(_) =>
    case _ =>
      if cmd.order in p.reservations {
        TotalRemove(p.reservations, cmd.order);
      }
  }

  /** Applying a listing to whatever state gives the stock and price of a product created with it. */
  lemma ListedAsCreated(p: ProductState, name: string, stock: nat, price: nat)
    ensures var listed := Applied(p, Listed(name, stock, price));
            listed.onHand == Created(stock, price).onHand && listed.unitPrice == Created(stock, price).unitPrice
            && listed.reservations == p.reservations
  {
  }

  /** When a command is rejected, and why; a rejection changes nothing. */
  lemma RejectedExactlyWhen(p: ProductState, cmd: ProductCommand)
    ensures Handled(p, cmd).NonPositiveQuantity? <==> (cmd.Replenish? || cmd.Reserve?) && cmd.quantity == 0
    ensures Handled(p, cmd).InsufficientStock? <==>
              && cmd.Reserve? && cmd.quantity > 0 && cmd.order !in p.reservations
              && cmd.quantity + Total(p.reservations) > p.onHand
    ensures !Handled(p, cmd).Accepted? ==> After(p, cmd) == p
  {
  }

  /** The quantity an order holds. */
  function Held(p: ProductState, order: OrderId): nat {
    if order in p.reservations then p.reservations[order] else 0
  }

  /**
   Where stock goes. Reserving moves free stock to the order, all of it or none; releasing
   moves it back; committing takes the order's stock off the shelf and leaves what is free
   alone; and free and held stock always add up to what is on the shelf.
   */
  lemma StockMoves(p: ProductState, cmd: ProductCommand)
    requires Covered(p)
    requires cmd.CommitReservation? && cmd.order in p.reservations ==> cmd.quantity == p.reservations[cmd.order]
    ensures var a := After(p, cmd); a.onHand == Available(a) + Total(a.reservations)
    ensures var a := After(p, cmd);
            match cmd
            case Replenish(q) => Available(a) == Available(p) + q
            case Reserve(o, q) =>
              var moved := if q > 0 && o !in p.reservations && q <= Available(p) then q else 0;
              a.onHand == p.onHand && Available(a) == Available(p) - moved && Held(a, o) == Held(p, o) + moved
            case Release(o, _) =>
              a.onHand == p.onHand && Available(a) == Available(p) + Held(p, o) && o !in a.reservations
            case CommitReservation(o, _) =>
              a.onHand == p.onHand - Held(p, o) && Available(a) == Available(p) && o !in a.reservations
  {
    match cmd
    case Reserve(o, q) =>
      if o !in p.reservations {
        TotalInsert(p.reservations, o, q);
      }
    case Replenish(_) =>
    case _ =>
      if cmd.order in p.reservations {
        TotalRemove(p.reservations, cmd.order);
      }
  }

  /** Reserving and releasing again gives back the very same state, accepted or not. */
  lemma ReserveThenRelease(p: ProductState, order: OrderId, quantity: nat, released: nat)
    requires order !in p.reservations
    ensures After(After(p, Reserve(order, quantity)), Release(order, released)) == p
  {
    assert p.reservations[order := quantity] - {order} == p.reservations;
  }

  /** A command for an order, handled again, changes nothing. */
  lemma AgainIsNothing(p: ProductState, cmd: ProductCommand)
    requires !cmd.Replenish?
    ensures After(After(p, cmd), cmd) == After(p, cmd)
  {
  }
}
